/** String operations used by both halves of the system: the prefix removal
    of the backend (`_remove_beginning_str`, and the `www.` removal of the
    extension, which is the same operation), Python's `str.strip(chars)` and
    JavaScript's `String.prototype.endsWith`. */
module Strings {

  /** Removes `prefix` once from the front of `content` when `content` starts
      with it, and otherwise returns `content` unchanged. */
  function RemovePrefix(prefix: string, content: string): (r: string)
    ensures prefix <= content ==> prefix + r == content
    ensures !(prefix <= content) ==> r == content
    ensures |r| <= |content| && r == content[|content| - |r|..]
  {
    if prefix <= content then content[|prefix|..] else content
  }

  /** Only one copy of the prefix goes: a doubled prefix leaves one behind. */
  lemma RemovePrefixAtMostOnce(prefix: string, rest: string)
    ensures RemovePrefix(prefix, prefix + prefix + rest) == prefix + rest
  {
    assert prefix + prefix + rest == prefix + (prefix + rest);
  }

  /** Hence the removal is not idempotent. */
  lemma RemovePrefixNotIdempotent()
    ensures RemovePrefix("json", "jsonjson{}") == "json{}"
    ensures RemovePrefix("json", RemovePrefix("json", "jsonjson{}")) == "{}"
  {
    RemovePrefixAtMostOnce("json", "{}");
    assert "jsonjson{}" == "json" + "json" + "{}";
    assert "json{}" == "json" + "{}";
  }

  /** JavaScript `s.endsWith(suffix)`: a plain character-wise suffix test,
      with no notion of domain-label boundaries. */
  predicate EndsWith(s: string, suffix: string)
  {
    |suffix| <= |s| && s[|s| - |suffix|..] == suffix
  }

  /** `a` occurs in `b` starting at index `i`. */
  ghost predicate InfixAt(a: string, b: string, i: nat)
  {
    i + |a| <= |b| && b[i..i + |a|] == a
  }

  /** `a` occurs in `b` as a contiguous block. */
  ghost predicate IsInfix(a: string, b: string)
  {
    exists i: nat :: InfixAt(a, b, i)
  }

  /** An infix of an infix is an infix. */
  lemma InfixAtTrans(a: string, m: string, b: string, i: nat, j: nat)
    requires InfixAt(m, b, i) && InfixAt(a, m, j)
    ensures InfixAt(a, b, i + j)
  {
    forall k | 0 <= k < |a|
      ensures b[i + j + k] == a[k]
    {
      assert a[k] == m[j + k];
      assert m[j + k] == b[i + j + k];
    }
  }

  /** Every character of `s` occurs in `chars`. */
  ghost predicate AllIn(s: string, chars: string)
  {
    forall k :: 0 <= k < |s| ==> s[k] in chars
  }

  /** Python `s.lstrip(chars)`: drops leading characters that occur anywhere
      in `chars` (a character set, not a substring). */
  function TrimLeft(s: string, chars: string): (r: string)
    ensures |r| <= |s| && r == s[|s| - |r|..]
    ensures AllIn(s[..|s| - |r|], chars)
    ensures r == [] || r[0] !in chars
    decreases |s|
  {
    if |s| > 0 && s[0] in chars then
      var r := TrimLeft(s[1..], chars);
      assert s[..|s| - |r|] == [s[0]] + s[1..][..|s| - 1 - |r|];
      r
    else s
  }

  /** Python `s.rstrip(chars)`. */
  function TrimRight(s: string, chars: string): (r: string)
    ensures |r| <= |s| && r == s[..|r|]
    ensures AllIn(s[|r|..], chars)
    ensures r == [] || r[|r| - 1] !in chars
    decreases |s|
  {
    if |s| > 0 && s[|s| - 1] in chars then
      var r := TrimRight(s[..|s| - 1], chars);
      assert s[|r|..] == s[..|s| - 1][|r|..] + [s[|s| - 1]];
      r
    else s
  }

  /** `s` is `r` with characters of `chars` before it (the first `start` of
      them) and after it. */
  ghost predicate IsCore(s: string, chars: string, start: nat, r: string)
  {
    && start + |r| <= |s|
    && s[start..start + |r|] == r
    && AllIn(s[..start], chars)
    && AllIn(s[start + |r|..], chars)
  }

  /** Python `s.strip(chars)`: the largest infix of `s` that neither starts nor
      ends with a character of `chars`. Interior characters are kept. */
  function Strip(s: string, chars: string): (r: string)
    ensures |r| <= |s|
    ensures r == [] || (r[0] !in chars && r[|r| - 1] !in chars)
    ensures IsCore(s, chars, |s| - |TrimLeft(s, chars)|, r)
  {
    var left := TrimLeft(s, chars);
    var r := TrimRight(left, chars);
    StripCore(s, chars, left, r);
    assert r == [] || r[0] == left[0];
    r
  }

  /** `r` sits in `s` after the prefix `left` leaves out, and what `left`
      and `r` leave out consists of `chars`. */
  lemma StripCore(s: string, chars: string, left: string, r: string)
    requires |left| <= |s| && left == s[|s| - |left|..] && AllIn(s[..|s| - |left|], chars)
    requires |r| <= |left| && r == left[..|r|] && AllIn(left[|r|..], chars)
    ensures IsCore(s, chars, |s| - |left|, r)
  {
    var start := |s| - |left|;
    assert s[start..start + |r|] == r;
    assert s[start + |r|..] == left[|r|..];
  }

  /** Stripping is idempotent. */
  lemma StripIdempotent(s: string, chars: string)
    ensures Strip(Strip(s, chars), chars) == Strip(s, chars)
  {
  }

  /** `lstrip` depends only on the set of characters given. */
  lemma {:induction false} TrimLeftCharSet(s: string, a: string, b: string)
    requires forall c :: c in a <==> c in b
    ensures TrimLeft(s, a) == TrimLeft(s, b)
    decreases |s|
  {
    if |s| > 0 && s[0] in a {
      TrimLeftCharSet(s[1..], a, b);
    }
  }

  /** `rstrip` depends only on the set of characters given. */
  lemma {:induction false} TrimRightCharSet(s: string, a: string, b: string)
    requires forall c :: c in a <==> c in b
    ensures TrimRight(s, a) == TrimRight(s, b)
    decreases |s|
  {
    if |s| > 0 && s[|s| - 1] in a {
      TrimRightCharSet(s[..|s| - 1], a, b);
    }
  }

  /** Stripping "```" is stripping the single character set {'`'}: a lone
      backtick or two at either end go just as a full fence does. */
  lemma StripFenceIsCharSet(s: string)
    ensures Strip(s, "```") == Strip(s, "`")
  {
    TrimLeftCharSet(s, "```", "`");
    TrimRightCharSet(TrimLeft(s, "`"), "```", "`");
  }
}
