/** The two edits of the configuration file: each decodes the text, checks it,
    sets one field of one section, and prints the document again. */
module ConfigEncoding {
  import opened Options

  const CONFIG_MAX: nat := 1024 * 1024

  /** A JSON value, with the objects the edits look into. */
  datatype Json = Object(fields: map<string, Json>) | Text(text: string) | Other(raw: string)

  datatype Mode = Verbatim | Clean | Llm
  datatype Output = Type | Clipboard | Paste
  datatype Edit = SetMode(mode: Mode) | SetMethod(output: Output)

  function ModeName(mode: Mode): string {
    match mode
    case Verbatim => "verbatim"
    case Clean => "clean"
    case Llm => "llm"
  }

  function MethodName(output: Output): string {
    match output
    case Type => "type"
    case Clipboard => "clipboard"
    case Paste => "paste"
  }

  /** The JSON library and the decoding of the configuration struct, section by
      section; `rest` is the document without the two edited sections. `loads` is
      `project_session_config`. */
  datatype Library = Library(
    parse: string -> Option<Json>,
    render: Json -> string,
    restTyped: map<string, Json> -> bool,
    processingTyped: Json -> bool,
    outputTyped: Json -> bool,
    llmReady: map<string, Json> -> bool,
    loads: Json -> bool
  )

  /** What an edit of a parsed document prints is parsed again. */
  predicate RoundTrips(lib: Library, edit: Edit, text: string) {
    lib.parse(text).Some? && Apply(edit, lib.parse(text).value).Some? ==>
      var w := Apply(edit, lib.parse(text).value).value; lib.parse(lib.render(w) + "\n") == Some(w)
  }

  /** Edited documents round-trip, and any of the names the edits write decodes. */
  ghost predicate Faithful(lib: Library) {
    && (forall edit, text :: RoundTrips(lib, edit, text))
    && (forall section, mode: Mode :: lib.processingTyped(Object(section))
          ==> lib.processingTyped(Object(section["mode" := Text(ModeName(mode))])))
    && (forall mode: Mode :: lib.processingTyped(Object(map["mode" := Text(ModeName(mode))])))
    && (forall section, output: Output :: lib.outputTyped(Object(section))
          ==> lib.outputTyped(Object(section["method" := Text(MethodName(output))])))
    && (forall output: Output :: lib.outputTyped(Object(map["method" := Text(MethodName(output))])))
  }

  function Rest(root: map<string, Json>): map<string, Json> {
    root - {"processing", "output"}
  }

  /** The document decodes as a configuration. */
  predicate Typed(lib: Library, v: Json) {
    && v.Object?
    && lib.restTyped(Rest(v.fields))
    && ("processing" in v.fields ==> lib.processingTyped(v.fields["processing"]))
    && ("output" in v.fields ==> lib.outputTyped(v.fields["output"]))
  }

  function SectionOf(edit: Edit): string {
    if edit.SetMode? then "processing" else "output"
  }

  function KeyOf(edit: Edit): string {
    if edit.SetMode? then "mode" else "method"
  }

  function ValueOf(edit: Edit): Json {
    match edit
    case SetMode(mode) => Text(ModeName(mode))
    case SetMethod(output) => Text(MethodName(output))
  }

  /** `entry(section).or_insert({}).as_object_mut()` and the insertion. */
  function SetField(v: Json, section: string, key: string, value: Json): Option<Json> {
    if !v.Object? then None
    else
      var before := if section in v.fields then v.fields[section] else Object(map[]);
      if !before.Object? then None else Some(Object(v.fields[section := Object(before.fields[key := value])]))
  }

  function Apply(edit: Edit, v: Json): Option<Json> {
    SetField(v, SectionOf(edit), KeyOf(edit), ValueOf(edit))
  }

  /** Only the processing mode is checked against the whole configuration. */
  predicate Allowed(lib: Library, edit: Edit, v: Json) {
    edit.SetMode? ==> Typed(lib, v) && (edit.mode.Llm? ==> lib.llmReady(Rest(v.fields)))
  }

  function Print(lib: Library, v: Json): Option<string> {
    var text := lib.render(v) + "\n";
    if |text| > CONFIG_MAX then None else Some(text)
  }

  /** `encode_processing_mode` and `encode_output_method`. */
  function Encode(lib: Library, edit: Edit, text: string): Option<string> {
    match lib.parse(text)
    case None => None
    case Some(v) =>
      if !Allowed(lib, edit, v) then None
      else match Apply(edit, v)
           case None => None
           case Some(w) => Print(lib, w)
  }

  /** What the file says of a field. */
  function Field(v: Json, section: string, key: string): Option<Json> {
    if v.Object? && section in v.fields && v.fields[section].Object? && key in v.fields[section].fields
    then Some(v.fields[section].fields[key]) else None
  }

  lemma SetFieldSets(v: Json, section: string, key: string, value: Json)
    requires SetField(v, section, key, value).Some?
    ensures var w := SetField(v, section, key, value).value;
            && Field(w, section, key) == Some(value)
            && (forall s, k :: s != section || k != key ==> Field(w, s, k) == Field(v, s, k))
            && (forall s :: s != section ==> (s in w.fields <==> s in v.fields))
            && (forall s :: s != section && s in v.fields ==> w.fields[s] == v.fields[s])
            && SetField(w, section, key, value) == Some(w)
  {
    var w := SetField(v, section, key, value).value;
    assert w.fields[section := w.fields[section]] == w.fields;
    assert w.fields[section].fields[key := value] == w.fields[section].fields;
  }

  lemma EncodedParses(lib: Library, edit: Edit, text: string)
    requires Faithful(lib) && Encode(lib, edit, text).Some?
    ensures lib.parse(Encode(lib, edit, text).value) == Apply(edit, lib.parse(text).value)
  {
    assert RoundTrips(lib, edit, text);
  }

  /** A successful edit sets its field and leaves every other field and section as
      it was. */
  lemma EncodeSetsOneField(lib: Library, edit: Edit, text: string)
    requires Faithful(lib) && Encode(lib, edit, text).Some?
    ensures var v, w := lib.parse(text), lib.parse(Encode(lib, edit, text).value);
            && v.Some? && w.Some?
            && Field(w.value, SectionOf(edit), KeyOf(edit)) == Some(ValueOf(edit))
            && (forall s, k :: s != SectionOf(edit) || k != KeyOf(edit) ==> Field(w.value, s, k) == Field(v.value, s, k))
            && (forall s :: s != SectionOf(edit) ==> (s in w.value.fields <==> s in v.value.fields))
            && (forall s :: s != SectionOf(edit) && s in v.value.fields ==> w.value.fields[s] == v.value.fields[s])
    ensures |Encode(lib, edit, text).value| <= CONFIG_MAX
  {
    EncodedParses(lib, edit, text);
    SetFieldSets(lib.parse(text).value, SectionOf(edit), KeyOf(edit), ValueOf(edit));
  }

  lemma StillAllowed(lib: Library, edit: Edit, other: Edit, v: Json)
    requires Faithful(lib) && Allowed(lib, edit, v) && Apply(other, v).Some?
    ensures Allowed(lib, edit, Apply(other, v).value)
  {
    var w := Apply(other, v).value;
    assert Rest(w.fields) == Rest(v.fields);
  }

  /** Repeating an edit changes nothing. */
  lemma EncodeIsIdempotent(lib: Library, edit: Edit, text: string)
    requires Faithful(lib) && Encode(lib, edit, text).Some?
    ensures Encode(lib, edit, Encode(lib, edit, text).value) == Encode(lib, edit, text)
  {
    EncodedParses(lib, edit, text);
    var v := lib.parse(text).value;
    SetFieldSets(v, SectionOf(edit), KeyOf(edit), ValueOf(edit));
    StillAllowed(lib, edit, edit, v);
  }

  lemma SetTwice(v: Json, section: string, key: string, x: Json, y: Json)
    requires SetField(v, section, key, x).Some?
    ensures SetField(SetField(v, section, key, x).value, section, key, y) == SetField(v, section, key, y)
  {
    var before := if section in v.fields then v.fields[section] else Object(map[]);
    assert before.fields[key := x][key := y] == before.fields[key := y];
    var w := SetField(v, section, key, x).value;
    assert w.fields[section := Object(before.fields[key := y])] == v.fields[section := Object(before.fields[key := y])];
  }

  /** A later edit of the same field replaces an earlier one. */
  lemma LaterEditWins(lib: Library, edit: Edit, other: Edit, text: string)
    requires Faithful(lib) && Encode(lib, edit, text).Some? && Encode(lib, other, text).Some?
    requires SectionOf(edit) == SectionOf(other)
    ensures Encode(lib, other, Encode(lib, edit, text).value) == Encode(lib, other, text)
  {
    EncodedParses(lib, edit, text);
    var v := lib.parse(text).value;
    var w := Apply(edit, v).value;
    StillAllowed(lib, other, edit, v);
    SetTwice(v, SectionOf(other), KeyOf(other), ValueOf(edit), ValueOf(other));
    assert KeyOf(edit) == KeyOf(other);
  }

  lemma SetFieldsCommute(v: Json, s: string, k: string, x: Json, s': string, k': string, x': Json)
    requires s != s' && SetField(v, s, k, x).Some? && SetField(v, s', k', x').Some?
    ensures var a, b := SetField(v, s, k, x).value, SetField(v, s', k', x').value;
            SetField(a, s', k', x').Some? && SetField(a, s', k', x') == SetField(b, s, k, x)
  {
    var a, b := SetField(v, s, k, x).value, SetField(v, s', k', x').value;
    var section, section' := a.fields[s], b.fields[s'];
    assert SetField(a, s', k', x') == Some(Object(v.fields[s := section][s' := section']));
    assert SetField(b, s, k, x) == Some(Object(v.fields[s' := section'][s := section]));
    assert v.fields[s := section][s' := section'] == v.fields[s' := section'][s := section];
  }

  /** If both edits succeed on a document, both orders give the same document, or
      both are refused for its size. */
  lemma EditsCommute(lib: Library, edit: Edit, other: Edit, text: string)
    requires Faithful(lib) && Encode(lib, edit, text).Some? && Encode(lib, other, text).Some?
    requires SectionOf(edit) != SectionOf(other)
    ensures Encode(lib, other, Encode(lib, edit, text).value) == Encode(lib, edit, Encode(lib, other, text).value)
  {
    EncodedParses(lib, edit, text);
    EncodedParses(lib, other, text);
    var v := lib.parse(text).value;
    StillAllowed(lib, other, edit, v);
    StillAllowed(lib, edit, other, v);
    SetFieldsCommute(v, SectionOf(edit), KeyOf(edit), ValueOf(edit), SectionOf(other), KeyOf(other), ValueOf(other));
  }

  /** The order can matter when one of them fails alone: fixing the output method
      first can make a processing edit possible. */
  lemma OrderMatters(lib: Library, root: map<string, Json>)
    requires Faithful(lib) && Typed(lib, Object(root)) && !lib.outputTyped(Object(map["method" := Other("5")]))
    requires "output" !in root && ("processing" in root ==> root["processing"].Object?)
    ensures var v := Object(root["output" := Object(map["method" := Other("5")])]);
            && !Allowed(lib, SetMode(Clean), v)
            && Apply(SetMethod(Type), v).Some? && Allowed(lib, SetMode(Clean), Apply(SetMethod(Type), v).value)
  {
    var v := Object(root["output" := Object(map["method" := Other("5")])]);
    var w := Apply(SetMethod(Type), v).value;
    assert Rest(w.fields) == Rest(v.fields) == Rest(root);
    assert w.fields["output"].fields == map["method" := Text(MethodName(Type))];
  }

  /** The words the configuration uses, and where. */
  lemma EditIsSpelled(lib: Library, edit: Edit, text: string)
    requires Faithful(lib) && Encode(lib, edit, text).Some?
    ensures var w := lib.parse(Encode(lib, edit, text).value);
            && w.Some?
            && match edit
               case SetMode(Verbatim) => Field(w.value, "processing", "mode") == Some(Text("verbatim"))
               case SetMode(Clean) => Field(w.value, "processing", "mode") == Some(Text("clean"))
               case SetMode(Llm) => Field(w.value, "processing", "mode") == Some(Text("llm"))
               case SetMethod(Type) => Field(w.value, "output", "method") == Some(Text("type"))
               case SetMethod(Clipboard) => Field(w.value, "output", "method") == Some(Text("clipboard"))
               case SetMethod(Paste) => Field(w.value, "output", "method") == Some(Text("paste"))
  {
    EncodeSetsOneField(lib, edit, text);
  }

  /** When an edit is refused: the text does not parse to an object, its section is
      there and no object, the result would be too long, or, for the mode only, the
      document does not decode or asks for `llm` without what that needs. */
  lemma EncodeRefusesIff(lib: Library, edit: Edit, text: string)
    ensures Encode(lib, edit, text).None? <==>
              var v := lib.parse(text);
              || v.None? || !v.value.Object?
              || (var section := if edit.SetMode? then "processing" else "output";
                  section in v.value.fields && !v.value.fields[section].Object?)
              || (edit.SetMode? && !Typed(lib, v.value))
              || (edit == SetMode(Llm) && !lib.llmReady(Rest(v.value.fields)))
              || (Apply(edit, v.value).Some? && |lib.render(Apply(edit, v.value).value)| >= CONFIG_MAX)
  {
    var v := lib.parse(text);
    if v.Some? && v.value.Object? {
      var section := if edit.SetMode? then "processing" else "output";
      assert SectionOf(edit) == section;
    }
  }

  /** A document decodes or not by its parts, and each section only by itself. */
  lemma TypedBySection(lib: Library, root: map<string, Json>)
    ensures Typed(lib, Object(root)) <==>
              && lib.restTyped(root - {"processing", "output"})
              && (forall v :: "processing" in root && root["processing"] == v ==> lib.processingTyped(v))
              && (forall v :: "output" in root && root["output"] == v ==> lib.outputTyped(v))
  {}
}
