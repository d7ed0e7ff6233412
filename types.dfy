/** The data contracts of the application (types.ts): the analysis mode, the
    bounding box and the two kinds of identification, together with their
    JSON form. TypeScript tells the two kinds apart only by which of the keys
    `name` and `issue` an object has; here the kind is an explicit
    constructor, and Decode recovers it from a JSON object by that same test. */
module Types {

  import opened Wrappers
  import opened JsonValue

  /** `'Normal' | 'Health'`. */
  datatype Mode = Normal | Health

  /** Four fractions of the image width and height. Nothing checks that they
      lie in [0, 1] or that min <= max: the model answer is not trusted. */
  datatype BoundingBox = BoundingBox(xMin: real, yMin: real, xMax: real, yMax: real)

  datatype Identification =
    | NormalId(name: string, description: string, coolFacts: seq<string>,
               technicalities: string, wikipediaUrl: string, box: BoundingBox)
    | HealthId(issue: string, description: string, simpleCures: seq<string>,
               naturalRemedies: seq<string>, box: BoundingBox)
  {
    /** The mode whose response schema describes this kind of record. */
    function ModeOf(): Mode
    {
      if NormalId? then Normal else Health
    }
  }

  /** The JSON keys each kind carries, in the order types.ts declares them. */
  const NormalKeys: seq<string> :=
    ["name", "description", "cool_facts", "technicalities", "wikipedia_url", "boundingBox"]
  const HealthKeys: seq<string> :=
    ["issue", "description", "simple_cures", "natural_remedies", "boundingBox"]
  const BoxKeys: seq<string> := ["x_min", "y_min", "x_max", "y_max"]

  function KeysOf(m: Mode): seq<string>
  {
    if m == Normal then NormalKeys else HealthKeys
  }

  // ---------------------------------------------------------------------
  // Encoding into JSON

  function EncodeStrings(xs: seq<string>): (r: seq<Json>)
    ensures |r| == |xs|
    ensures forall i :: 0 <= i < |xs| ==> r[i] == JStr(xs[i])
  {
    if xs == [] then [] else [JStr(xs[0])] + EncodeStrings(xs[1..])
  }

  function EncodeBox(b: BoundingBox): Json
  {
    JObj(map["x_min" := JNum(b.xMin), "y_min" := JNum(b.yMin),
             "x_max" := JNum(b.xMax), "y_max" := JNum(b.yMax)])
  }

  /** The JSON object a well-formed model answer holds for `id`. */
  function Encode(id: Identification): (r: Json)
    ensures r.JObj?
    ensures "boundingBox" in r.obj && "description" in r.obj
    ensures ("name" in r.obj) == id.NormalId? && ("issue" in r.obj) == id.HealthId?
  {
    match id
    case NormalId(name, description, facts, tech, url, box) =>
      JObj(map["name" := JStr(name), "description" := JStr(description),
               "cool_facts" := JArr(EncodeStrings(facts)),
               "technicalities" := JStr(tech), "wikipedia_url" := JStr(url),
               "boundingBox" := EncodeBox(box)])
    case HealthId(issue, description, cures, remedies, box) =>
      JObj(map["issue" := JStr(issue), "description" := JStr(description),
               "simple_cures" := JArr(EncodeStrings(cures)),
               "natural_remedies" := JArr(EncodeStrings(remedies)),
               "boundingBox" := EncodeBox(box)])
  }

  // ---------------------------------------------------------------------
  // Reading a JSON value as an Identification

  function GetString(m: map<string, Json>, key: string): Option<string>
  {
    if key in m && m[key].JStr? then Some(m[key].s) else None
  }

  function GetNumber(m: map<string, Json>, key: string): Option<real>
  {
    if key in m && m[key].JNum? then Some(m[key].n) else None
  }

  /** The strings of a JSON array whose every element is a string. */
  function DecodeStrings(js: seq<Json>): (r: Option<seq<string>>)
    ensures r.Some? <==> forall i :: 0 <= i < |js| ==> js[i].JStr?
    ensures r.Some? ==> |r.value| == |js| && forall i :: 0 <= i < |js| ==> js[i] == JStr(r.value[i])
  {
    if js == [] then Some([])
    else if !js[0].JStr? then None
    else
      match DecodeStrings(js[1..])
      case None => None
      case Some(rest) => Some([js[0].s] + rest)
  }

  function GetStrings(m: map<string, Json>, key: string): Option<seq<string>>
  {
    if key in m && m[key].JArr? then DecodeStrings(m[key].elems) else None
  }

  function GetBox(m: map<string, Json>, key: string): Option<BoundingBox>
  {
    if key in m && m[key].JObj? then
      var b := m[key].obj;
      var xMin :- GetNumber(b, "x_min");
      var yMin :- GetNumber(b, "y_min");
      var xMax :- GetNumber(b, "x_max");
      var yMax :- GetNumber(b, "y_max");
      Some(BoundingBox(xMin, yMin, xMax, yMax))
    else None
  }

  function DecodeNormal(m: map<string, Json>): Option<Identification>
  {
    var name :- GetString(m, "name");
    var description :- GetString(m, "description");
    var facts :- GetStrings(m, "cool_facts");
    var tech :- GetString(m, "technicalities");
    var url :- GetString(m, "wikipedia_url");
    var box :- GetBox(m, "boundingBox");
    Some(NormalId(name, description, facts, tech, url, box))
  }

  function DecodeHealth(m: map<string, Json>): Option<Identification>
  {
    var issue :- GetString(m, "issue");
    var description :- GetString(m, "description");
    var cures :- GetStrings(m, "simple_cures");
    var remedies :- GetStrings(m, "natural_remedies");
    var box :- GetBox(m, "boundingBox");
    Some(HealthId(issue, description, cures, remedies, box))
  }

  /** The union of types.ts:27 read off a JSON value: an object with `name`
      and no `issue` is a NormalIdentification, one with `issue` and no
      `name` a HealthIdentification; anything else, including an object with
      both keys, is neither. Keys beyond the declared ones are ignored, as
      TypeScript's structural typing allows. */
  function Decode(j: Json): (r: Option<Identification>)
    ensures r.Some? ==> j.JObj?
    ensures r.Some? ==> !("name" in j.obj && "issue" in j.obj)
    ensures r.Some? ==> (r.value.NormalId? <==> "name" in j.obj)
    ensures r.Some? ==> (r.value.HealthId? <==> "issue" in j.obj)
    ensures r.Some? && r.value.NormalId? ==> j.obj["name"] == JStr(r.value.name)
    ensures r.Some? && r.value.HealthId? ==> j.obj["issue"] == JStr(r.value.issue)
    ensures r.Some? ==> "description" in j.obj && j.obj["description"] == JStr(r.value.description)
  {
    if !j.JObj? then None
    else if "name" in j.obj && "issue" !in j.obj then DecodeNormal(j.obj)
    else if "issue" in j.obj && "name" !in j.obj then DecodeHealth(j.obj)
    else None
  }

  // ---------------------------------------------------------------------
  // Properties

  /** `Mode` has exactly the two values 'Normal' and 'Health'. */
  lemma ModeHasTwoValues(m: Mode)
    ensures m == Normal || m == Health
    ensures Normal != Health
  {
  }

  lemma {:induction false} StringsRoundTrip(xs: seq<string>)
    ensures DecodeStrings(EncodeStrings(xs)) == Some(xs)
  {
    if xs != [] {
      StringsRoundTrip(xs[1..]);
      assert EncodeStrings(xs)[1..] == EncodeStrings(xs[1..]);
      assert [xs[0]] + xs[1..] == xs;
    }
  }

  lemma {:induction false} NormalRoundTrip(id: Identification)
    requires id.NormalId?
    ensures DecodeNormal(Encode(id).obj) == Some(id)
  {
    var m := map["name" := JStr(id.name), "description" := JStr(id.description),
                 "cool_facts" := JArr(EncodeStrings(id.coolFacts)),
                 "technicalities" := JStr(id.technicalities),
                 "wikipedia_url" := JStr(id.wikipediaUrl),
                 "boundingBox" := EncodeBox(id.box)];
    assert Encode(id).obj == m;
    StringsRoundTrip(id.coolFacts);
    assert GetString(m, "name") == Some(id.name);
    assert GetString(m, "description") == Some(id.description);
    assert GetStrings(m, "cool_facts") == Some(id.coolFacts);
    assert GetString(m, "technicalities") == Some(id.technicalities);
    assert GetString(m, "wikipedia_url") == Some(id.wikipediaUrl);
    assert GetBox(m, "boundingBox") == Some(id.box);
  }

  lemma {:induction false} HealthRoundTrip(id: Identification)
    requires id.HealthId?
    ensures DecodeHealth(Encode(id).obj) == Some(id)
  {
    var m := map["issue" := JStr(id.issue), "description" := JStr(id.description),
                 "simple_cures" := JArr(EncodeStrings(id.simpleCures)),
                 "natural_remedies" := JArr(EncodeStrings(id.naturalRemedies)),
                 "boundingBox" := EncodeBox(id.box)];
    assert Encode(id).obj == m;
    StringsRoundTrip(id.simpleCures);
    StringsRoundTrip(id.naturalRemedies);
    assert GetString(m, "issue") == Some(id.issue);
    assert GetString(m, "description") == Some(id.description);
    assert GetStrings(m, "simple_cures") == Some(id.simpleCures);
    assert GetStrings(m, "natural_remedies") == Some(id.naturalRemedies);
    assert GetBox(m, "boundingBox") == Some(id.box);
  }

  /** Reading back the JSON form of an identification gives the same
      identification, of the same kind. */
  lemma {:induction false} IdentificationRoundTrip(id: Identification)
    ensures Decode(Encode(id)) == Some(id)
  {
    if id.NormalId? { NormalRoundTrip(id); } else { HealthRoundTrip(id); }
  }

  /** The JSON object of an identification has exactly the keys its kind
      declares, and no other. */
  lemma EncodedKeys(id: Identification)
    ensures forall k :: k in Encode(id).obj <==> k in KeysOf(id.ModeOf())
  {
  }

  /** Every identification of either kind carries a bounding box with the
      four coordinates, and the one read from JSON is the one that was
      written. */
  lemma {:induction false} EveryIdentificationHasBox(id: Identification)
    ensures "boundingBox" in Encode(id).obj
    ensures Encode(id).obj["boundingBox"].JObj?
    ensures forall k :: k in Encode(id).obj["boundingBox"].obj <==> k in BoxKeys
    ensures GetBox(Encode(id).obj, "boundingBox") == Some(id.box)
  {
  }

  /** No JSON value reads as both kinds: the key that selects one kind rules
      out the other (`issue?: never`, `name?: never`). */
  lemma KindIsExclusive(j: Json, id: Identification)
    requires Decode(j) == Some(id)
    ensures id.NormalId? ==> "issue" !in j.obj
    ensures id.HealthId? ==> "name" !in j.obj
  {
  }
}
