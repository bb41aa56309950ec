/**
 * What `_get_csrf_token` extracts from the landing page: the leftmost match of
 * `window\.CSRF_TOKEN\s*=\s*["\']([^"\']+)["\']` and its first group.
 */
module VerifierToken {
  import opened Wrappers
  import opened Text
  import opened Verifier

  /** The search stops at the leftmost position where the pattern matches. */
  lemma {:induction false} FindTokenLeftmost(s: string, from: nat, i: nat)
    requires from <= i <= |s| && TokenAt(s, i).Some?
    requires forall j :: from <= j < i ==> TokenAt(s, j).None?
    decreases i - from
    ensures FindToken(s, from) == TokenAt(s, i)
  {
    if from < i {
      FindTokenLeftmost(s, from + 1, i);
    }
  }

  /** The search finds nothing exactly when the pattern matches at no position from `from` on. */
  lemma {:induction false} FindTokenNone(s: string, from: nat)
    decreases |s| + 1 - from
    ensures FindToken(s, from).None? <==> forall j :: from <= j <= |s| ==> TokenAt(s, j).None?
  {
    if from <= |s| {
      FindTokenNone(s, from + 1);
      assert FindToken(s, from) == if TokenAt(s, from).Some? then TokenAt(s, from) else FindToken(s, from + 1);
    }
  }

  /** What the search returns is the group of a match at some position. */
  lemma {:induction false} FindTokenMatches(s: string, from: nat)
    requires FindToken(s, from).Some?
    decreases |s| + 1 - from
    ensures exists i :: from <= i <= |s| && TokenAt(s, i) == FindToken(s, from)
  {
    if TokenAt(s, from).Some? {
      assert TokenAt(s, from) == FindToken(s, from);
    } else {
      FindTokenMatches(s, from + 1);
      var i :| from + 1 <= i <= |s| && TokenAt(s, i) == FindToken(s, from + 1);
      assert TokenAt(s, i) == FindToken(s, from);
    }
  }

  predicate AllSpace(s: string) {
    forall k :: 0 <= k < |s| ==> IsSpace(s[k])
  }

  lemma {:induction false} LeadingSpacesOf(ws: string, rest: string)
    requires AllSpace(ws) && |rest| > 0 && !IsSpace(rest[0])
    decreases |ws|
    ensures LeadingSpaces(ws + rest) == |ws|
  {
    if |ws| > 0 {
      assert (ws + rest)[1..] == ws[1..] + rest;
      LeadingSpacesOf(ws[1..], rest);
    } else {
      assert ws + rest == rest;
    }
  }

  lemma {:induction false} QuoteFreeRunOf(t: string, rest: string)
    requires NoQuotes(t) && |rest| > 0 && IsQuote(rest[0])
    decreases |t|
    ensures QuoteFreeRun(t + rest) == |t|
  {
    if |t| > 0 {
      assert (t + rest)[1..] == t[1..] + rest;
      QuoteFreeRunOf(t[1..], rest);
    } else {
      assert t + rest == rest;
    }
  }

  /** The text `pre`, then `window.CSRF_TOKEN<ws1>=<ws2><q1><t><q2>`, then `post`. */
  function AssignmentPage(pre: string, ws1: string, ws2: string, q1: char, t: string, q2: char, post: string): string {
    pre + (TokenMarker + (ws1 + ("=" + (ws2 + ([q1] + (t + ([q2] + post)))))))
  }

  lemma GroupOf(t: string, q2: char, post: string)
    requires IsQuote(q2) && t != "" && NoQuotes(t)
    ensures Group(t + ([q2] + post)) == Some(t)
  {
    QuoteFreeRunOf(t, [q2] + post);
    assert (t + ([q2] + post))[..|t|] == t;
  }

  lemma AfterEqualsOf(ws2: string, q1: char, r: string)
    requires AllSpace(ws2) && IsQuote(q1)
    ensures AfterEquals(ws2 + ([q1] + r)) == Group(r)
  {
    LeadingSpacesOf(ws2, [q1] + r);
    assert (ws2 + ([q1] + r))[|ws2| + 1..] == r;
  }

  lemma AfterMarkerOf(ws1: string, r: string)
    requires AllSpace(ws1)
    ensures AfterMarker(ws1 + ("=" + r)) == AfterEquals(r)
  {
    LeadingSpacesOf(ws1, "=" + r);
    assert (ws1 + ("=" + r))[|ws1| + 1..] == r;
  }

  lemma TokenAtMarker(pre: string, r: string)
    ensures TokenAt(pre + (TokenMarker + r), |pre|) == AfterMarker(r)
  {
    var s := pre + (TokenMarker + r);
    assert s[|pre|..] == TokenMarker + r;
    assert (TokenMarker + r)[..|TokenMarker|] == TokenMarker;
    assert (TokenMarker + r)[|TokenMarker|..] == r;
  }

  /**
   * A page holding `window.CSRF_TOKEN`, optional spaces, `=`, optional spaces, a quote, a
   * quote-free token and a quote has a match right at the marker whose group is the token.
   */
  lemma TokenAtAssignment(pre: string, ws1: string, ws2: string, q1: char, t: string, q2: char, post: string)
    requires AllSpace(ws1) && AllSpace(ws2)
    requires IsQuote(q1) && IsQuote(q2) && t != "" && NoQuotes(t)
    ensures TokenAt(AssignmentPage(pre, ws1, ws2, q1, t, q2, post), |pre|) == Some(t)
  {
    var r2 := t + ([q2] + post);
    var r1 := ws2 + ([q1] + r2);
    GroupOf(t, q2, post);
    AfterEqualsOf(ws2, q1, r2);
    AfterMarkerOf(ws1, r1);
    TokenAtMarker(pre, ws1 + ("=" + r1));
  }

  /** A page whose only match is the assignment yields the token it assigns. */
  lemma FindTokenAssignment(pre: string, ws1: string, ws2: string, q1: char, t: string, q2: char, post: string)
    requires AllSpace(ws1) && AllSpace(ws2)
    requires IsQuote(q1) && IsQuote(q2) && t != "" && NoQuotes(t)
    requires forall j :: 0 <= j < |pre| ==>
      TokenAt(AssignmentPage(pre, ws1, ws2, q1, t, q2, post), j).None?
    ensures FindToken(AssignmentPage(pre, ws1, ws2, q1, t, q2, post), 0) == Some(t)
  {
    TokenAtAssignment(pre, ws1, ws2, q1, t, q2, post);
    FindTokenLeftmost(AssignmentPage(pre, ws1, ws2, q1, t, q2, post), 0, |pre|);
  }
}
