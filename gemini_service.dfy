/** The analysis client (services/geminiService.ts): the mode-specific
    request, the response normaliser and the error shape of `analyzeImage`.
    The remote model and `JSON.parse` are oracles passed in as functions:
    `remote` yields the response text or None for any failure of the call,
    `parse` yields the parsed value or None when parsing throws. */
module GeminiService {

  import opened Wrappers
  import opened JsonValue
  import opened Types
  import DataUrl

  // ---------------------------------------------------------------------
  // Response schemas (descriptions left out)

  datatype Schema =
    | SString
    | SNumber
    | SArray(items: Schema)
    | SObject(properties: seq<Property>, required: seq<string>)

  datatype Property = Property(name: string, schema: Schema)

  /** The box schema lists its four numbers but requires none of them. */
  const BoxSchema: Schema :=
    SObject([Property("x_min", SNumber), Property("y_min", SNumber),
             Property("x_max", SNumber), Property("y_max", SNumber)], [])

  const NormalSchema: Schema :=
    SObject([Property("name", SString), Property("description", SString),
             Property("cool_facts", SArray(SString)), Property("technicalities", SString),
             Property("wikipedia_url", SString), Property("boundingBox", BoxSchema)],
            ["name", "description", "cool_facts", "technicalities", "wikipedia_url", "boundingBox"])

  const HealthSchema: Schema :=
    SObject([Property("issue", SString), Property("description", SString),
             Property("simple_cures", SArray(SString)),
             Property("natural_remedies", SArray(SString)),
             Property("boundingBox", BoxSchema)],
            ["issue", "description", "simple_cures", "natural_remedies", "boundingBox"])

  function ItemSchema(mode: Mode): Schema
  {
    if mode == Normal then NormalSchema else HealthSchema
  }

  /** Whether a JSON value satisfies a schema: every required key present,
      every declared property that is present of its declared shape. */
  predicate Conforms(j: Json, s: Schema)
    decreases s
  {
    match s
    case SString => j.JStr?
    case SNumber => j.JNum?
    case SArray(items) =>
      j.JArr? && forall i :: 0 <= i < |j.elems| ==> Conforms(j.elems[i], items)
    case SObject(props, req) =>
      && j.JObj?
      && (forall k :: k in req ==> k in j.obj)
      && forall i :: 0 <= i < |props| ==>
           (props[i].name in j.obj ==> Conforms(j.obj[props[i].name], props[i].schema))
  }

  // ---------------------------------------------------------------------
  // Prompts. Each Health string is the source's literal, cut where the
  // disclaimer wording begins so that its presence can be stated.

  const NormalPrompt: string :=
    "Identify all significant objects in this image. For each, provide its name, a description, cool facts, technical details, a Wikipedia link, and its bounding box."
  const NormalInstruction: string :=
    "You are an expert encyclopedia. For the given image, identify all significant objects and return details about them in the specified JSON format."

  const NotMedicalAdvice: string := "This is not medical advice."
  const HealthPrompt: string :=
    "Analyze this image for any significant health-related concerns (like a plant disease or a common skin issue). For each, describe the issue, suggest simple wellness tips, cures, and natural remedies. "
    + NotMedicalAdvice + " Provide a bounding box for each area of concern."

  const NotProfessionalAdvice: string :=
    "Always include a disclaimer that this is not a substitute for professional medical or botanical advice."
  const HealthInstruction: string :=
    "You are a helpful wellness and botany assistant. Identify potential health issues in the image and provide general, non-medical advice in the specified JSON format. "
    + NotProfessionalAdvice

  const ModelName: string := "gemini-2.5-flash"
  const JsonMimeType: string := "application/json"
  const AnalysisFailedMessage: string := "Failed to get analysis from AI."

  predicate OccursAt(s: string, t: string, i: int)
  {
    0 <= i <= |s| - |t| && s[i..i + |t|] == t
  }

  ghost predicate Contains(s: string, t: string)
  {
    exists i :: OccursAt(s, t, i)
  }

  /** What `generateContent` is asked: the image part followed by the prompt,
      the system instruction, and a JSON answer of the given schema. */
  datatype GenerateRequest = GenerateRequest(
    model: string, image: DataUrl.ImagePart, prompt: string,
    systemInstruction: string, responseMimeType: string, responseSchema: Schema)

  /** The request for one mode. Normal asks for an array of objects requiring
      exactly the NormalIdentification keys, Health for an array of objects
      requiring exactly the HealthIdentification keys, and the Health prompt
      and instruction always carry the not-medical-advice wording. */
  function BuildRequest(image: DataUrl.ImagePart, mode: Mode): (r: GenerateRequest)
    ensures r.image == image && r.model == ModelName && r.responseMimeType == JsonMimeType
    ensures r.responseSchema.SArray? && r.responseSchema.items.SObject?
    ensures r.responseSchema.items.required == KeysOf(mode)
    ensures mode == Health ==> Contains(r.prompt, NotMedicalAdvice)
    ensures mode == Health ==> Contains(r.systemInstruction, NotProfessionalAdvice)
  {
    var prompt := if mode == Normal then NormalPrompt else HealthPrompt;
    var instruction := if mode == Normal then NormalInstruction else HealthInstruction;
    DisclaimersPresent();
    GenerateRequest(ModelName, image, prompt, instruction, JsonMimeType,
                    SArray(ItemSchema(mode)))
  }

  lemma DisclaimersPresent()
    ensures Contains(HealthPrompt, NotMedicalAdvice)
    ensures Contains(HealthInstruction, NotProfessionalAdvice)
  {
    var head := "Analyze this image for any significant health-related concerns (like a plant disease or a common skin issue). For each, describe the issue, suggest simple wellness tips, cures, and natural remedies. ";
    assert OccursAt(HealthPrompt, NotMedicalAdvice, |head|);
    var lead := "You are a helpful wellness and botany assistant. Identify potential health issues in the image and provide general, non-medical advice in the specified JSON format. ";
    assert OccursAt(HealthInstruction, NotProfessionalAdvice, |lead|);
  }

  // ---------------------------------------------------------------------
  // String.prototype.trim

  /** ECMAScript WhiteSpace and LineTerminator code points. */
  predicate IsSpace(c: char)
  {
    || c == '\t' || c == '\n' || c == '\U{B}' || c == '\U{C}' || c == '\r' || c == ' '
    || c == '\U{A0}' || c == '\U{1680}' || ('\U{2000}' <= c <= '\U{200A}')
    || c == '\U{2028}' || c == '\U{2029}' || c == '\U{202F}' || c == '\U{205F}'
    || c == '\U{3000}' || c == '\U{FEFF}'
  }

  predicate AllSpace(s: string)
  {
    forall i :: 0 <= i < |s| ==> IsSpace(s[i])
  }

  lemma AllSpaceConcat(a: string, b: string)
    requires AllSpace(a) && AllSpace(b)
    ensures AllSpace(a + b)
  {
    forall i | 0 <= i < |a + b| ensures IsSpace((a + b)[i]) {
      if i >= |a| { assert (a + b)[i] == b[i - |a|]; }
    }
  }

  /** `s` with its leading white space removed. */
  function TrimStart(s: string): (r: string)
    ensures |r| <= |s| && r == s[|s| - |r|..]
    ensures AllSpace(s[..|s| - |r|])
    ensures r != [] ==> !IsSpace(r[0])
  {
    if s != [] && IsSpace(s[0]) then
      var r := TrimStart(s[1..]);
      var cut := s[1..][..|s| - 1 - |r|];
      assert s[..|s| - |r|] == [s[0]] + cut;
      assert AllSpace([s[0]]);
      AllSpaceConcat([s[0]], cut);
      r
    else s
  }

  /** `s` with its trailing white space removed. */
  function TrimEnd(s: string): (r: string)
    ensures |r| <= |s| && r == s[..|r|]
    ensures AllSpace(s[|r|..])
    ensures r != [] ==> !IsSpace(r[|r| - 1])
  {
    if s != [] && IsSpace(s[|s| - 1]) then
      var r := TrimEnd(s[..|s| - 1]);
      var cut := s[..|s| - 1][|r|..];
      assert s[|r|..] == cut + [s[|s| - 1]];
      assert AllSpace([s[|s| - 1]]);
      AllSpaceConcat(cut, [s[|s| - 1]]);
      r
    else s
  }

  /** `r` sits at position `i` of `s` with only white space around it. */
  predicate PaddedAt(s: string, i: int, r: string)
  {
    0 <= i <= |s| - |r| && s[i..i + |r|] == r && AllSpace(s[..i]) && AllSpace(s[i + |r|..])
  }

  /** Cutting white space off the front of `s` (leaving `t`) and then off
      the back of `t` (leaving `r`) leaves `r` padded in `s`. */
  lemma PaddedAfterCuts(s: string, t: string, r: string)
    requires |t| <= |s| && t == s[|s| - |t|..] && AllSpace(s[..|s| - |t|])
    requires |r| <= |t| && r == t[..|r|] && AllSpace(t[|r|..])
    ensures PaddedAt(s, |s| - |t|, r)
  {
    var i := |s| - |t|;
    assert s[i..i + |r|] == r;
    assert s[i + |r|..] == t[|r|..];
  }

  /** Cutting only from the back keeps a non-white first character. */
  lemma EdgesAfterCuts(t: string, r: string)
    requires t != [] ==> !IsSpace(t[0])
    requires |r| <= |t| && r == t[..|r|]
    requires r != [] ==> !IsSpace(r[|r| - 1])
    ensures r != [] ==> !IsSpace(r[0]) && !IsSpace(r[|r| - 1])
  {
    if r != [] {
      assert r[0] == t[0];
    }
  }

  /** `s.trim()`: the longest substring that neither starts nor ends with
      white space, and only white space is cut off at either end. */
  function Trim(s: string): (r: string)
    ensures exists i :: PaddedAt(s, i, r)
    ensures r != [] ==> !IsSpace(r[0]) && !IsSpace(r[|r| - 1])
  {
    var t := TrimStart(s);
    var r := TrimEnd(t);
    PaddedAfterCuts(s, t, r);
    EdgesAfterCuts(t, r);
    r
  }

  /** Trimming text padded with white space gives back the text. */
  lemma {:induction false} TrimPadded(lead: string, t: string, trail: string)
    requires AllSpace(lead) && AllSpace(trail)
    requires t != [] ==> !IsSpace(t[0]) && !IsSpace(t[|t| - 1])
    ensures Trim(lead + t + trail) == t
  {
    if t == [] {
      assert lead + t + trail == lead + trail + [];
      AllSpaceConcat(lead, trail);
      TrimStartPadded(lead + trail, []);
    } else {
      assert lead + t + trail == lead + (t + trail);
      TrimStartPadded(lead, t + trail);
      TrimEndPadded(t, trail);
    }
  }

  lemma {:induction false} TrimStartPadded(lead: string, u: string)
    requires AllSpace(lead)
    requires u != [] ==> !IsSpace(u[0])
    ensures TrimStart(lead + u) == u
    decreases |lead|
  {
    if lead != [] {
      assert (lead + u)[1..] == lead[1..] + u;
      TrimStartPadded(lead[1..], u);
    } else {
      assert lead + u == u;
    }
  }

  lemma {:induction false} TrimEndPadded(t: string, trail: string)
    requires AllSpace(trail)
    requires t != [] ==> !IsSpace(t[|t| - 1])
    ensures TrimEnd(t + trail) == t
    decreases |trail|
  {
    if trail != [] {
      var last := |trail| - 1;
      assert (t + trail)[..|t + trail| - 1] == t + trail[..last];
      TrimEndPadded(t, trail[..last]);
    } else {
      assert t + trail == t;
    }
  }

  /** Trimming twice is trimming once. */
  lemma TrimIdempotent(s: string)
    ensures Trim(Trim(s)) == Trim(s)
  {
    TrimPadded([], Trim(s), []);
    assert [] + Trim(s) + [] == Trim(s);
  }

  // ---------------------------------------------------------------------
  // Normalisation and analyzeImage

  /** "Ensure the output is always an array": an array is returned as it
      is, a non-null object is wrapped in a one-element list, and null,
      booleans, numbers and strings give the empty list. */
  function Normalise(j: Json): (r: seq<Json>)
    ensures j.JArr? ==> r == j.elems
    ensures j.JObj? ==> r == [j]
    ensures !j.JArr? && !j.JObj? ==> r == []
  {
    match j
    case JArr(elems) => elems
    case JObj(_) => [j]
    case _ => []
  }

  /** A lone object and a one-element array holding it normalise alike, and
      normalising an already normalised answer changes nothing. */
  lemma {:induction false} NormaliseUniform(j: Json)
    ensures j.JObj? ==> Normalise(j) == Normalise(JArr([j]))
    ensures Normalise(JArr(Normalise(j))) == Normalise(j)
    ensures |Normalise(j)| <= 1 || j.JArr?
  {
  }

  /** `analyzeImage(base64Image, mode)`. A malformed data URL throws before
      the `try`, so its error escapes as it is and no request is made; any
      failure of the call, the trim or the parse becomes the one generic
      error; otherwise the result is the normalised parsed answer. */
  function AnalyzeImage(image: string, mode: Mode,
                        remote: GenerateRequest -> Option<string>,
                        parse: string -> Option<Json>): (r: Result<seq<Json>, string>)
    ensures DataUrl.Parse(image).Err? ==> r == Err(DataUrl.InvalidImageMessage)
    ensures DataUrl.Parse(image).Ok? && r.Err? ==> r.error == AnalysisFailedMessage
    ensures DataUrl.Parse(image).Ok? ==>
              var reply := remote(BuildRequest(DataUrl.Parse(image).value, mode));
              && (r.Ok? <==> reply.Some? && parse(Trim(reply.value)).Some?)
              && (r.Ok? ==> r.value == Normalise(parse(Trim(reply.value)).value))
  {
    match DataUrl.Parse(image)
    case Err(e) => Err(e)
    case Ok(part) =>
      match remote(BuildRequest(part, mode))
      case None => Err(AnalysisFailedMessage)
      case Some(text) =>
        match parse(Trim(text))
        case None => Err(AnalysisFailedMessage)
        case Some(answer) => Ok(Normalise(answer))
  }

  /** End to end: for a well-formed data URL, the request carries the split
      image part, and an answer that parses to an array comes back as that
      very array. */
  lemma ArrayAnswerReturned(sub: string, d: string, mode: Mode,
                            remote: GenerateRequest -> Option<string>,
                            parse: string -> Option<Json>, text: string, items: seq<Json>)
    requires DataUrl.WellFormed(sub, d)
    requires remote(BuildRequest(DataUrl.ImagePart("image/" + sub, d), mode)) == Some(text)
    requires parse(Trim(text)) == Some(JArr(items))
    ensures AnalyzeImage(DataUrl.Compose(sub, d), mode, remote, parse) == Ok(items)
  {
    DataUrl.ParseCompose(sub, d);
  }

  // ---------------------------------------------------------------------
  // Schema and data contract agree

  /** The required list of each mode's item schema is exactly the list of
      keys the corresponding identification type declares. */
  lemma SchemaRequiresTypeKeys(mode: Mode)
    ensures ItemSchema(mode).required == KeysOf(mode)
    ensures forall k :: k in KeysOf(mode) <==>
              exists i :: 0 <= i < |ItemSchema(mode).properties| && ItemSchema(mode).properties[i].name == k
  {
    var ps := ItemSchema(mode).properties;
    forall k | k in KeysOf(mode)
      ensures exists i :: 0 <= i < |ps| && ps[i].name == k
    {
      var i :| 0 <= i < |KeysOf(mode)| && KeysOf(mode)[i] == k;
      assert ps[i].name == k;
    }
  }

  lemma {:induction false} StringsConform(xs: seq<string>)
    ensures Conforms(JArr(EncodeStrings(xs)), SArray(SString))
  {
  }

  lemma NormalConforms(id: Identification)
    requires id.NormalId?
    ensures Conforms(Encode(id), NormalSchema)
  {
    var m := map["name" := JStr(id.name), "description" := JStr(id.description),
                 "cool_facts" := JArr(EncodeStrings(id.coolFacts)),
                 "technicalities" := JStr(id.technicalities),
                 "wikipedia_url" := JStr(id.wikipediaUrl),
                 "boundingBox" := EncodeBox(id.box)];
    assert Encode(id) == JObj(m);
    StringsConform(id.coolFacts);
    assert Conforms(EncodeBox(id.box), BoxSchema);
    var props := NormalSchema.properties;
    forall i | 0 <= i < |props|
      ensures props[i].name in m && Conforms(m[props[i].name], props[i].schema)
    {
      assert i == 0 || i == 1 || i == 2 || i == 3 || i == 4 || i == 5;
    }
  }

  lemma HealthConforms(id: Identification)
    requires id.HealthId?
    ensures Conforms(Encode(id), HealthSchema)
  {
    var m := map["issue" := JStr(id.issue), "description" := JStr(id.description),
                 "simple_cures" := JArr(EncodeStrings(id.simpleCures)),
                 "natural_remedies" := JArr(EncodeStrings(id.naturalRemedies)),
                 "boundingBox" := EncodeBox(id.box)];
    assert Encode(id) == JObj(m);
    StringsConform(id.simpleCures);
    StringsConform(id.naturalRemedies);
    assert Conforms(EncodeBox(id.box), BoxSchema);
    var props := HealthSchema.properties;
    forall i | 0 <= i < |props|
      ensures props[i].name in m && Conforms(m[props[i].name], props[i].schema)
    {
      assert i == 0 || i == 1 || i == 2 || i == 3 || i == 4;
    }
  }

  /** The JSON form of an identification satisfies the item schema of its
      mode. */
  lemma EncodedConforms(id: Identification)
    ensures Conforms(Encode(id), ItemSchema(id.ModeOf()))
  {
    if id.NormalId? { NormalConforms(id); } else { HealthConforms(id); }
  }
}
