/** The data-URL splitter `fileToGenerativePart` (services/geminiService.ts):
    the JavaScript pattern `^data:(image\/\w+);base64,(.*)$`, with no flags,
    written out as a scan. Without the `m` flag `^` and `$` anchor at the
    ends of the whole string; `\w` is [A-Za-z0-9_]; `.` is any character but
    a line terminator. */
module DataUrl {

  import opened Wrappers

  /** The inline image the request carries: `{ data, mimeType }`. */
  datatype ImagePart = ImagePart(mimeType: string, data: string)

  const Prefix: string := "data:image/"
  const Marker: string := ";base64,"
  const InvalidImageMessage: string := "Invalid base64 string"

  predicate IsWordChar(c: char)
  {
    ('A' <= c <= 'Z') || ('a' <= c <= 'z') || ('0' <= c <= '9') || c == '_'
  }

  /** The characters ECMAScript's `.` refuses to match. */
  predicate IsLineTerminator(c: char)
  {
    c == '\n' || c == '\r' || c == '\U{2028}' || c == '\U{2029}'
  }

  predicate AllWord(s: string)
  {
    forall i :: 0 <= i < |s| ==> IsWordChar(s[i])
  }

  predicate NoLineBreak(s: string)
  {
    forall i :: 0 <= i < |s| ==> !IsLineTerminator(s[i])
  }

  /** The number of word characters in `s` from position `i` on: how far the
      greedy `\w+` reaches. */
  function WordRun(s: string, i: nat): (n: nat)
    requires i <= |s|
    ensures i + n <= |s|
    ensures AllWord(s[i..i + n])
    ensures i + n == |s| || !IsWordChar(s[i + n])
    decreases |s| - i
  {
    if i < |s| && IsWordChar(s[i]) then
      var n := 1 + WordRun(s, i + 1);
      assert s[i..i + n] == [s[i]] + s[i + 1..i + 1 + (n - 1)];
      n
    else 0
  }

  /** The data URL with image subtype `sub` and payload `d`. */
  function Compose(sub: string, d: string): string
  {
    Prefix + sub + Marker + d
  }

  /** The subtypes and payloads the pattern admits. */
  predicate WellFormed(sub: string, d: string)
  {
    |sub| > 0 && AllWord(sub) && NoLineBreak(d)
  }

  /** `fileToGenerativePart`: on a match, the first group is the MIME type and
      the second the payload; otherwise the call throws 'Invalid base64
      string'. Whatever it accepts is a well-formed data URL, and the parts
      returned are the ones it was composed of. */
  function Parse(s: string): (r: Result<ImagePart, string>)
    ensures r.Err? ==> r.error == InvalidImageMessage
    ensures r.Ok? ==> |r.value.mimeType| > 6 && r.value.mimeType[..6] == "image/"
    ensures r.Ok? ==> WellFormed(r.value.mimeType[6..], r.value.data)
    ensures r.Ok? ==> s == Compose(r.value.mimeType[6..], r.value.data)
  {
    if !(|Prefix| <= |s| && s[..|Prefix|] == Prefix) then Err(InvalidImageMessage)
    else
      var k := WordRun(s, |Prefix|);
      var j := |Prefix| + k;
      if k == 0 || !(j + |Marker| <= |s| && s[j..j + |Marker|] == Marker) then Err(InvalidImageMessage)
      else
        var d := s[j + |Marker|..];
        if !NoLineBreak(d) then Err(InvalidImageMessage)
        else
          var sub := s[|Prefix|..j];
          assert s == Compose(sub, d) by {
            assert s == s[..|Prefix|] + s[|Prefix|..j] + s[j..j + |Marker|] + s[j + |Marker|..];
          }
          Ok(ImagePart("image/" + sub, d))
  }

  // ---------------------------------------------------------------------
  // Properties

  lemma {:induction false} WordRunOf(s: string, i: nat, n: nat)
    requires i + n <= |s|
    requires AllWord(s[i..i + n])
    requires i + n == |s| || !IsWordChar(s[i + n])
    ensures WordRun(s, i) == n
    decreases n
  {
    if n > 0 {
      assert IsWordChar(s[i..i + n][0]);
      assert s[i + 1..i + 1 + (n - 1)] == s[i..i + n][1..];
      WordRunOf(s, i + 1, n - 1);
    }
  }

  /** Round trip: a data URL composed of a non-empty `\w` subtype and a
      payload without line terminators is split back into exactly
      `image/<subtype>` and that payload. */
  lemma {:induction false} ParseCompose(sub: string, d: string)
    requires WellFormed(sub, d)
    ensures Parse(Compose(sub, d)) == Ok(ImagePart("image/" + sub, d))
  {
    var s := Compose(sub, d);
    var p := |Prefix|;
    assert s[..p] == Prefix;
    assert s[p..p + |sub|] == sub;
    WordRunOf(s, p, |sub|);
    assert s[p + |sub|] == ';';
    assert s[p + |sub|..p + |sub| + |Marker|] == Marker;
    assert s[p + |sub| + |Marker|..] == d;
  }

  /** The pattern accepts exactly the composed data URLs. */
  lemma AcceptsExactlyDataUrls(s: string)
    ensures Parse(s).Ok? <==> exists sub, d :: WellFormed(sub, d) && s == Compose(sub, d)
  {
    if exists sub, d :: WellFormed(sub, d) && s == Compose(sub, d) {
      var sub, d :| WellFormed(sub, d) && s == Compose(sub, d);
      ParseCompose(sub, d);
    }
  }

  /** An empty payload is accepted. */
  lemma EmptyPayloadAccepted(sub: string)
    requires |sub| > 0 && AllWord(sub)
    ensures Parse(Prefix + sub + Marker) == Ok(ImagePart("image/" + sub, ""))
  {
    assert Prefix + sub + Marker == Compose(sub, "");
    ParseCompose(sub, "");
  }

  /** A subtype whose word characters are followed by anything other than
      `;` (a `+`, `-` or `.`, as in `image/svg+xml`) is rejected. */
  lemma RejectsNonWordSubtype(w: string, c: char, rest: string)
    requires AllWord(w) && !IsWordChar(c) && c != ';'
    ensures Parse(Prefix + w + [c] + rest).Err?
  {
    var s := Prefix + w + [c] + rest;
    var p := |Prefix|;
    assert s[p..p + |w|] == w;
    assert s[p + |w|] == c;
    WordRunOf(s, p, |w|);
  }

  predicate HasMarkerAt(s: string, i: int)
  {
    0 <= i <= |s| - |Marker| && s[i..i + |Marker|] == Marker
  }

  /** Every composed data URL starts with `data:image/`, holds the marker
      right after the subtype, and has no line terminator. */
  lemma {:induction false} ComposeShape(sub: string, d: string)
    requires WellFormed(sub, d)
    ensures |Prefix| <= |Compose(sub, d)| && Compose(sub, d)[..|Prefix|] == Prefix
    ensures HasMarkerAt(Compose(sub, d), |Prefix| + |sub|)
    ensures NoLineBreak(Compose(sub, d))
  {
    var s := Compose(sub, d);
    var p := |Prefix|;
    assert s[p + |sub|..p + |sub| + |Marker|] == Marker;
    forall i | 0 <= i < |s| ensures !IsLineTerminator(s[i]) {
      if i < p {
        assert s[i] == Prefix[i];
      } else if i < p + |sub| {
        assert s[i] == sub[i - p];
        assert IsWordChar(sub[i - p]);
      } else if i < p + |sub| + |Marker| {
        assert s[i] == Marker[i - p - |sub|];
      } else {
        assert s[i] == d[i - p - |sub| - |Marker|];
      }
    }
  }

  /** A string that does not start with `data:image/` is rejected. */
  lemma RejectsOtherTypes(s: string)
    requires !(|Prefix| <= |s| && s[..|Prefix|] == Prefix)
    ensures Parse(s).Err?
  {
    forall sub, d | WellFormed(sub, d) ensures s != Compose(sub, d) {
      ComposeShape(sub, d);
    }
    AcceptsExactlyDataUrls(s);
  }

  /** A string without the `;base64,` marker is rejected. */
  lemma RejectsWithoutMarker(s: string)
    requires forall i :: !HasMarkerAt(s, i)
    ensures Parse(s).Err?
  {
    forall sub, d | WellFormed(sub, d) ensures s != Compose(sub, d) {
      ComposeShape(sub, d);
    }
    AcceptsExactlyDataUrls(s);
  }

  /** A string holding a line terminator anywhere is rejected: the prefix,
      subtype and marker contain none, and `.` does not match one. */
  lemma RejectsLineBreak(s: string, i: nat)
    requires i < |s| && IsLineTerminator(s[i])
    ensures Parse(s).Err?
  {
    forall sub, d | WellFormed(sub, d) ensures s != Compose(sub, d) {
      ComposeShape(sub, d);
    }
    AcceptsExactlyDataUrls(s);
  }

  /** `image/svg+xml` is refused: `+` ends the subtype before the marker. */
  lemma RejectsSvgExample()
    ensures Parse(Prefix + "svg+xml" + Marker + "PHN2Zz4=").Err?
  {
    var rest := "xml" + Marker + "PHN2Zz4=";
    RejectsNonWordSubtype("svg", '+', rest);
    assert Prefix + "svg+xml" + Marker + "PHN2Zz4=" == Prefix + "svg" + ['+'] + rest;
  }

  /** A `text/plain` data URL is refused. */
  lemma RejectsTextExample()
    ensures Parse("data:text/plain;base64,SGk=").Err?
  {
    var text := "data:text/plain;base64,SGk=";
    assert text[..|Prefix|][5] != Prefix[5];
    RejectsOtherTypes(text);
  }

  /** A payload with a line feed is refused. */
  lemma RejectsLineFeedExample()
    ensures Parse("data:image/png;base64,AA\nAA").Err?
  {
    RejectsLineBreak("data:image/png;base64,AA\nAA", 24);
  }
}
