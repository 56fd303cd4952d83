/**
 * The two JavaScript built-ins the core relies on for text:
 * `Array.prototype.join` over strings and `String.prototype.trim`.
 */
module JsBuiltins {

  /** `parts.join(sep)`: the parts in order, with `sep` between neighbours. */
  function Join(parts: seq<string>, sep: string): string
    decreases |parts|
  {
    if parts == [] then ""
    else if |parts| == 1 then parts[0]
    else Join(parts[..|parts| - 1], sep) + sep + parts[|parts| - 1]
  }

  /**
   * The characters `trim` removes: the WhiteSpace and LineTerminator code
   * points of section 12.2 and 12.3 of ECMA-262 (tab, vertical tab, form
   * feed, space, no-break space, byte-order mark, the Zs category, line feed,
   * carriage return, line and paragraph separators).
   */
  predicate IsJsSpace(c: char) {
    || c == '\t' || c == '\n' || c == '\U{000B}' || c == '\U{000C}' || c == '\r'
    || c == ' ' || c == '\U{00A0}' || c == '\U{1680}'
    || ('\U{2000}' <= c <= '\U{200A}')
    || c == '\U{2028}' || c == '\U{2029}' || c == '\U{202F}' || c == '\U{205F}'
    || c == '\U{3000}' || c == '\U{FEFF}'
  }

  predicate AllSpace(s: string) {
    forall k :: 0 <= k < |s| ==> IsJsSpace(s[k])
  }

  /** The length of the whitespace run that starts `s`. */
  function LeadingSpace(s: string): (n: nat)
    ensures n <= |s|
    ensures AllSpace(s[..n])
    ensures n < |s| ==> !IsJsSpace(s[n])
  {
    if s == [] || !IsJsSpace(s[0]) then 0
    else
      var n := 1 + LeadingSpace(s[1..]);
      assert s[..n] == [s[0]] + s[1..][..n - 1];
      n
  }

  /** The length of the whitespace run that ends `s`. */
  function TrailingSpace(s: string): (n: nat)
    ensures n <= |s|
    ensures AllSpace(s[|s| - n..])
    ensures n < |s| ==> !IsJsSpace(s[|s| - 1 - n])
  {
    if s == [] || !IsJsSpace(s[|s| - 1]) then 0
    else
      var init := s[..|s| - 1];
      var n := 1 + TrailingSpace(init);
      assert s[|s| - n..] == init[|init| - (n - 1)..] + [s[|s| - 1]];
      n
  }

  /** `s.trim()`: `s` without its leading and trailing whitespace. */
  function Trim(s: string): (r: string)
    ensures |r| <= |s|
    ensures r == "" <==> AllSpace(s)
    ensures r != "" ==> !IsJsSpace(r[0]) && !IsJsSpace(r[|r| - 1])
  {
    var rest := s[LeadingSpace(s)..];
    var r := rest[..|rest| - TrailingSpace(rest)];
    BlankExactlyWhenNothingLeft(s);
    assert r != "" ==> r[0] == rest[0] && r[|r| - 1] == rest[|rest| - 1 - TrailingSpace(rest)];
    r
  }

  /** Nothing is left between the two whitespace runs exactly when `s` is all whitespace. */
  lemma BlankExactlyWhenNothingLeft(s: string)
    ensures var rest := s[LeadingSpace(s)..];
      TrailingSpace(rest) == |rest| <==> AllSpace(s)
  {
    var lead := LeadingSpace(s);
    var rest := s[lead..];
    var trail := TrailingSpace(rest);
    assert lead < |s| ==> |rest| > 0 && rest[0] == s[lead];
    assert trail == |rest| ==> rest[|rest| - trail..] == rest;
    assert trail == |rest| ==> lead == |s|;
    assert lead == |s| ==> s[..lead] == s;
  }

  /** Padding of whitespace on either side of a text with no outer whitespace is exactly what `Trim` removes. */
  lemma {:induction false} TrimRemovesPadding(pre: string, t: string, post: string)
    requires AllSpace(pre) && AllSpace(post)
    requires t != "" ==> !IsJsSpace(t[0]) && !IsJsSpace(t[|t| - 1])
    ensures Trim(pre + t + post) == t
  {
    var s := pre + t + post;
    if t == "" {
      assert s == pre + post;
      assert AllSpace(s) by {
        forall k | 0 <= k < |s| ensures IsJsSpace(s[k]) {
          if k < |pre| { assert s[k] == pre[k]; } else { assert s[k] == post[k - |pre|]; }
        }
      }
    } else {
      LeadingSpaceOfPadded(pre, t + post);
      assert s == pre + (t + post);
      var rest := s[|pre|..];
      assert rest == t + post;
      TrailingSpaceOfPadded(t, post);
    }
  }

  lemma {:induction false} LeadingSpaceOfPadded(pre: string, s: string)
    requires AllSpace(pre) && s != [] && !IsJsSpace(s[0])
    ensures LeadingSpace(pre + s) == |pre|
    decreases |pre|
  {
    if pre == [] {
      assert pre + s == s;
    } else {
      var t := pre + s;
      assert t[0] == pre[0] && t[1..] == pre[1..] + s;
      assert IsJsSpace(t[0]);
      assert AllSpace(pre[1..]) by {
        forall k | 0 <= k < |pre| - 1 ensures IsJsSpace(pre[1..][k]) {
          assert pre[1..][k] == pre[k + 1];
        }
      }
      LeadingSpaceOfPadded(pre[1..], s);
    }
  }

  lemma {:induction false} TrailingSpaceOfPadded(s: string, post: string)
    requires AllSpace(post) && s != [] && !IsJsSpace(s[|s| - 1])
    ensures TrailingSpace(s + post) == |post|
    decreases |post|
  {
    if post != [] {
      assert (s + post)[..|s + post| - 1] == s + post[..|post| - 1];
      TrailingSpaceOfPadded(s, post[..|post| - 1]);
    }
  }

  /** Trimming twice is trimming once. */
  lemma TrimIdempotent(s: string)
    ensures Trim(Trim(s)) == Trim(s)
  {
    TrimRemovesPadding("", Trim(s), "");
    assert "" + Trim(s) + "" == Trim(s);
  }
}
