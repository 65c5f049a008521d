/**
 * `String.buildAnnotatedUrl` of the example app's network dev tools
 * (devtools/DevToolsNetworkScreen.kt): an endpoint title such as
 * `v1/payment_methods/{id}/detach` is split on `{` and `}` and appended
 * part by part, each part Gray when it is a path parameter. The
 * annotated string is modelled as its sequence of styled parts.
 */
module DevToolsNetworkScreen {

  datatype Color = Gray | Unspecified

  /** One `withStyle(SpanStyle(color)) { append(text) }` of the builder. */
  datatype StyledPart = StyledPart(text: string, color: Color)

  predicate IsBrace(c: char) {
    c == '{' || c == '}'
  }

  predicate BraceFree(s: string) {
    forall k :: 0 <= k < |s| ==> !IsBrace(s[k])
  }

  /** The brace characters of `s`, in order. */
  function Braces(s: string): (r: string)
    ensures forall k :: 0 <= k < |r| ==> IsBrace(r[k])
  {
    if s == [] then []
    else (if IsBrace(s[0]) then [s[0]] else []) + Braces(s[1..])
  }

  /** `s` with every brace removed. */
  function RemoveBraces(s: string): (r: string)
    ensures BraceFree(r)
  {
    if s == [] then []
    else (if IsBrace(s[0]) then [] else [s[0]]) + RemoveBraces(s[1..])
  }

  /** The parts joined back with no separator. */
  function Concat(parts: seq<string>): string {
    if parts == [] then "" else parts[0] + Concat(parts[1..])
  }

  /** The parts joined back with the given separators between them. */
  function Weave(parts: seq<string>, seps: string): string
    requires |parts| == |seps| + 1
  {
    if seps == [] then parts[0] else parts[0] + [seps[0]] + Weave(parts[1..], seps[1..])
  }

  /**
   * `split("{", "}")`: the pieces between consecutive braces, empty pieces
   * kept, so there is one more part than there are braces.
   */
  function SplitOnBraces(s: string): (parts: seq<string>)
    ensures |parts| == |Braces(s)| + 1
    ensures forall k :: 0 <= k < |parts| ==> BraceFree(parts[k])
  {
    if s == [] then [""]
    else
      var rest := SplitOnBraces(s[1..]);
      if IsBrace(s[0]) then
        [""] + rest
      else
        var parts := [[s[0]] + rest[0]] + rest[1..];
        assert BraceFree(parts[0]) by {
          forall k | 0 <= k < |parts[0]| ensures !IsBrace(parts[0][k]) {
            if k > 0 { assert parts[0][k] == rest[0][k - 1]; }
          }
        }
        assert forall k :: 1 <= k < |parts| ==> parts[k] == rest[k];
        parts
  }

  /** Prepending a character to the first part prepends it to the joined text. */
  lemma ConsFirstPart(c: char, parts: seq<string>, seps: string)
    requires |parts| == |seps| + 1
    ensures Concat([[c] + parts[0]] + parts[1..]) == [c] + Concat(parts)
    ensures Weave([[c] + parts[0]] + parts[1..], seps) == [c] + Weave(parts, seps)
  {
    var q := [[c] + parts[0]] + parts[1..];
    assert q[1..] == parts[1..];
  }

  /** The parts joined back together are the title without its braces. */
  lemma {:induction false} SplitConcat(s: string)
    ensures Concat(SplitOnBraces(s)) == RemoveBraces(s)
  {
    if s != [] {
      var rest := SplitOnBraces(s[1..]);
      SplitConcat(s[1..]);
      if IsBrace(s[0]) {
        assert ([""] + rest)[1..] == rest;
      } else {
        ConsFirstPart(s[0], rest, Braces(s[1..]));
      }
    }
  }

  /** The parts woven back with the braces are the title itself. */
  lemma {:induction false} SplitWeave(s: string)
    ensures Weave(SplitOnBraces(s), Braces(s)) == s
  {
    if s != [] {
      var rest := SplitOnBraces(s[1..]);
      SplitWeave(s[1..]);
      if IsBrace(s[0]) {
        assert ([""] + rest)[1..] == rest;
      } else {
        assert Braces(s) == Braces(s[1..]);
        ConsFirstPart(s[0], rest, Braces(s[1..]));
        assert s == [s[0]] + s[1..];
      }
    }
  }

  /** `parts.filterIndexed { index, _ -> index % 2 == 1 }`: the parts at odd indices. */
  function ParamParts(parts: seq<string>): (r: seq<string>)
    ensures |r| == |parts| / 2
    ensures forall k :: 0 <= k < |r| ==> r[k] == parts[2 * k + 1]
  {
    seq(|parts| / 2, k requires 0 <= k < |parts| / 2 => parts[2 * k + 1])
  }

  /** The colour of a part: Gray when its text is among the parameter parts. */
  function PartColor(part: string, paramParts: seq<string>): (c: Color)
    ensures c == Gray <==> part in paramParts
    ensures c == Unspecified <==> part !in paramParts
  {
    if part in paramParts then Gray else Unspecified
  }

  /** The annotated title the builder produces, as a sequence. */
  function AnnotatedUrl(s: string): (spans: seq<StyledPart>)
    ensures |spans| == |SplitOnBraces(s)|
    ensures forall k :: 0 <= k < |spans| ==> spans[k].text == SplitOnBraces(s)[k]
    ensures forall k :: 0 <= k < |spans| ==>
      (spans[k].color == Gray <==> SplitOnBraces(s)[k] in ParamParts(SplitOnBraces(s)))
  {
    var parts := SplitOnBraces(s);
    var paramParts := ParamParts(parts);
    seq(|parts|, k requires 0 <= k < |parts| => StyledPart(parts[k], PartColor(parts[k], paramParts)))
  }

  /** `buildAnnotatedUrl`: the `for` loop appending one styled part per split piece. */
  method BuildAnnotatedUrl(s: string) returns (spans: seq<StyledPart>)
    ensures spans == AnnotatedUrl(s)
  {
    var parts := SplitOnBraces(s);
    var paramParts := ParamParts(parts);
    spans := [];
    for i := 0 to |parts|
      invariant |spans| == i
      invariant forall k :: 0 <= k < i ==> spans[k] == StyledPart(parts[k], PartColor(parts[k], paramParts))
    {
      var part := parts[i];
      var color := if part in paramParts then Gray else Unspecified;
      spans := spans + [StyledPart(part, color)];
    }
  }

  /** The texts of the parts, one after another. */
  function Texts(spans: seq<StyledPart>): (r: seq<string>)
    ensures |r| == |spans| && forall k :: 0 <= k < |r| ==> r[k] == spans[k].text
  {
    seq(|spans|, k requires 0 <= k < |spans| => spans[k].text)
  }

  /** There is one part per brace plus one, and their texts spell the title without its braces. */
  lemma AnnotatedUrlText(s: string)
    ensures |AnnotatedUrl(s)| == |Braces(s)| + 1
    ensures Concat(Texts(AnnotatedUrl(s))) == RemoveBraces(s)
    ensures Weave(Texts(AnnotatedUrl(s)), Braces(s)) == s
  {
    assert Texts(AnnotatedUrl(s)) == SplitOnBraces(s);
    SplitConcat(s);
    SplitWeave(s);
  }

  /** Membership in the parameter parts: the text of some part at an odd index. */
  lemma InParamParts(parts: seq<string>, x: string)
    ensures x in ParamParts(parts) <==> exists j :: 0 <= j < |parts| && j % 2 == 1 && parts[j] == x
  {
    var r := ParamParts(parts);
    if x in r {
      var k :| 0 <= k < |r| && r[k] == x;
      assert (2 * k + 1) % 2 == 1 && parts[2 * k + 1] == x;
    }
    if j :| 0 <= j < |parts| && j % 2 == 1 && parts[j] == x {
      var k := j / 2;
      assert j == 2 * k + 1;
      assert r[k] == x;
    }
  }

  /** Every part at an odd index is Gray. */
  lemma OddPartsAreGray(s: string, j: nat)
    requires j < |AnnotatedUrl(s)| && j % 2 == 1
    ensures AnnotatedUrl(s)[j].color == Gray
  {
    InParamParts(SplitOnBraces(s), AnnotatedUrl(s)[j].text);
  }

  /** A part is Gray exactly when its text equals the text of a part at an odd index. */
  lemma GrayIffTextOfOddPart(s: string, j: nat)
    requires j < |AnnotatedUrl(s)|
    ensures AnnotatedUrl(s)[j].color == Gray <==>
      exists i :: 0 <= i < |AnnotatedUrl(s)| && i % 2 == 1 && AnnotatedUrl(s)[i].text == AnnotatedUrl(s)[j].text
  {
    var parts := SplitOnBraces(s);
    InParamParts(parts, parts[j]);
    assert forall i :: 0 <= i < |parts| ==> AnnotatedUrl(s)[i].text == parts[i];
  }

  /** The split is determined: brace-free parts woven with the braces of `s` back into `s` are the split of `s`. */
  lemma {:induction false} SplitIsUnique(s: string, parts: seq<string>)
    requires |parts| == |Braces(s)| + 1
    requires forall k :: 0 <= k < |parts| ==> BraceFree(parts[k])
    requires Weave(parts, Braces(s)) == s
    ensures parts == SplitOnBraces(s)
    decreases |s|
  {
    if s != [] {
      var b := Braces(s);
      if IsBrace(s[0]) {
        // the first part must be empty, the brace being the first separator
        assert b == [s[0]] + Braces(s[1..]);
        assert parts[0] == "";
        assert s == [s[0]] + Weave(parts[1..], b[1..]);
        SplitIsUnique(s[1..], parts[1..]);
        assert parts == [""] + parts[1..];
      } else {
        assert b == Braces(s[1..]);
        assert parts[0] != "";
        assert s[0] == parts[0][0];
        var p' := [parts[0][1..]] + parts[1..];
        assert forall k :: 1 <= k < |p'| ==> p'[k] == parts[k];
        assert BraceFree(p'[0]) by {
          forall k | 0 <= k < |p'[0]| ensures !IsBrace(p'[0][k]) {
            assert p'[0][k] == parts[0][k + 1];
          }
        }
        if b == [] {
          assert s[1..] == p'[0];
        } else {
          assert s[1..] == Weave(p', b);
        }
        SplitIsUnique(s[1..], p');
        assert parts[0] == [s[0]] + p'[0];
        assert parts == [[s[0]] + p'[0]] + p'[1..];
      }
    }
  }
}
