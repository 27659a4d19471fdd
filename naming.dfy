/** `BaseEntityMapper.sanitizeName`: lower-case the name, turn every character
    outside `[a-z0-9-_.]` into `-`, then strip the leading and the trailing runs
    of characters that are not a lower-case letter or a digit. */
module Naming {

  predicate IsLowerAlnum(c: char) {
    'a' <= c <= 'z' || '0' <= c <= '9'
  }

  /** The characters the second `replace` keeps: `[a-z0-9-_.]`. */
  predicate IsNameChar(c: char) {
    IsLowerAlnum(c) || c == '-' || c == '_' || c == '.'
  }

  /** A valid catalog name: only name characters, and when not empty it
      begins and ends with a letter or a digit. */
  predicate IsSanitized(s: string) {
    && (forall i :: 0 <= i < |s| ==> IsNameChar(s[i]))
    && (s != [] ==> IsLowerAlnum(s[0]) && IsLowerAlnum(s[|s| - 1]))
  }

  /** `toLowerCase` on one ASCII character. */
  function LowerChar(c: char): char {
    if 'A' <= c <= 'Z' then (c as int + 32) as char else c
  }

  /** `toLowerCase`, on ASCII letters. */
  function ToLowerCase(s: string): string {
    seq(|s|, i requires 0 <= i < |s| => LowerChar(s[i]))
  }

  /** Each upper-case letter becomes its lower-case letter, every other
      character is kept in place, and none upper-case is left. */
  lemma ToLowerCaseSpec(s: string)
    ensures |ToLowerCase(s)| == |s|
    ensures forall i :: 0 <= i < |ToLowerCase(s)| ==> !('A' <= ToLowerCase(s)[i] <= 'Z')
    ensures forall i :: 0 <= i < |s| && !('A' <= s[i] <= 'Z') ==> ToLowerCase(s)[i] == s[i]
    ensures forall i :: 0 <= i < |s| && 'A' <= s[i] <= 'Z' ==> ToLowerCase(s)[i] as int == s[i] as int + 32
  {
  }

  /** `.replace(/[^a-z0-9-_.]/g, '-')` */
  function ReplaceInvalid(s: string): string {
    seq(|s|, i requires 0 <= i < |s| => if IsNameChar(s[i]) then s[i] else '-')
  }

  /** Only name characters are left, the ones already there stay in place,
      and the length is unchanged. */
  lemma ReplaceInvalidSpec(s: string)
    ensures |ReplaceInvalid(s)| == |s|
    ensures forall i :: 0 <= i < |ReplaceInvalid(s)| ==> IsNameChar(ReplaceInvalid(s)[i])
    ensures forall i :: 0 <= i < |s| && IsNameChar(s[i]) ==> ReplaceInvalid(s)[i] == s[i]
    ensures forall i :: 0 <= i < |s| && !IsNameChar(s[i]) ==> ReplaceInvalid(s)[i] == '-'
  {
  }

  /** The length of the leading run of characters that are not a letter or
      a digit. */
  function LeadingRun(s: string): (n: nat)
    ensures n <= |s|
    ensures forall i :: 0 <= i < n ==> !IsLowerAlnum(s[i])
    ensures n < |s| ==> IsLowerAlnum(s[n])
  {
    if s != [] && !IsLowerAlnum(s[0]) then 1 + LeadingRun(s[1..]) else 0
  }

  /** Where the trailing run of characters that are not a letter or a digit
      begins. */
  function TrailingStart(s: string): (n: nat)
    ensures n <= |s|
    ensures forall i :: n <= i < |s| ==> !IsLowerAlnum(s[i])
    ensures n > 0 ==> IsLowerAlnum(s[n - 1])
  {
    if s != [] && !IsLowerAlnum(s[|s| - 1]) then TrailingStart(s[..|s| - 1]) else |s|
  }

  /** `.replace(/^[^a-z0-9]+/, '')` */
  function TrimLeading(s: string): string {
    s[LeadingRun(s)..]
  }

  /** A suffix of the input that starts with a letter or a digit when not
      empty; what it drops holds neither. */
  lemma TrimLeadingSpec(s: string)
    ensures |TrimLeading(s)| <= |s| && TrimLeading(s) == s[|s| - |TrimLeading(s)|..]
    ensures TrimLeading(s) != [] ==> IsLowerAlnum(TrimLeading(s)[0])
    ensures forall i :: 0 <= i < |s| - |TrimLeading(s)| ==> !IsLowerAlnum(s[i])
  {
  }

  /** `.replace(/[^a-z0-9]+$/, '')` */
  function TrimTrailing(s: string): string {
    s[..TrailingStart(s)]
  }

  /** A prefix of the input that ends with a letter or a digit when not
      empty; what it drops holds neither. */
  lemma TrimTrailingSpec(s: string)
    ensures TrimTrailing(s) <= s
    ensures TrimTrailing(s) != [] ==> IsLowerAlnum(TrimTrailing(s)[|TrimTrailing(s)| - 1])
    ensures forall i :: |TrimTrailing(s)| <= i < |s| ==> !IsLowerAlnum(s[i])
  {
  }

  /** `sanitizeName(name)`: the output is a valid catalog name, never longer
      than the input. */
  function SanitizeName(name: string): (r: string)
    ensures IsSanitized(r)
    ensures |r| <= |name|
  {
    var u := ReplaceInvalid(ToLowerCase(name));
    var t := TrimLeading(u);
    assert forall i :: 0 <= i < |t| ==> IsNameChar(t[i]) by {
      forall i | 0 <= i < |t| ensures IsNameChar(t[i]) {
        assert t[i] == u[LeadingRun(u) + i];
      }
    }
    TrimTrailing(t)
  }

  /** A valid name is left as it is. */
  lemma SanitizedIsFixed(s: string)
    requires IsSanitized(s)
    ensures SanitizeName(s) == s
  {
    var l := ToLowerCase(s);
    assert l == s by {
      forall i | 0 <= i < |s| ensures l[i] == s[i] {
        assert IsNameChar(s[i]);
      }
    }
    assert ReplaceInvalid(l) == s;
  }

  /** Sanitizing twice is the same as sanitizing once. */
  lemma SanitizeIdempotent(name: string)
    ensures SanitizeName(SanitizeName(name)) == SanitizeName(name)
  {
    SanitizedIsFixed(SanitizeName(name));
  }

  /** The name of an entity is `sanitizeName(stem + "-" + identifier)` for a
      valid, non-empty stem such as `cf-worker`: whatever the identifier, the
      sanitized name still begins with the stem. */
  lemma {:induction false} SanitizeKeepsStem(stem: string, id: string)
    requires IsSanitized(stem) && stem != []
    ensures |SanitizeName(stem + "-" + id)| >= |stem|
    ensures SanitizeName(stem + "-" + id)[..|stem|] == stem
  {
    var s := stem + "-" + id;
    var u := ReplaceInvalid(ToLowerCase(s));
    forall i | 0 <= i < |stem| ensures u[i] == stem[i] {
      assert s[i] == stem[i];
      assert IsNameChar(stem[i]);
    }
    assert TrimLeading(u) == u;
    var r := TrimTrailing(u);
    assert IsLowerAlnum(u[|stem| - 1]);
    assert |r| >= |stem|;
    assert r[..|stem|] == u[..|stem|] == stem;
  }

  /** Names built on two valid stems neither of which is a prefix of the
      other are different, whatever the identifiers. */
  lemma DistinctStemsDistinctNames(s1: string, id1: string, s2: string, id2: string)
    requires IsSanitized(s1) && s1 != [] && IsSanitized(s2) && s2 != []
    requires !(s1 <= s2) && !(s2 <= s1)
    ensures SanitizeName(s1 + "-" + id1) != SanitizeName(s2 + "-" + id2)
  {
    var n1 := SanitizeName(s1 + "-" + id1);
    var n2 := SanitizeName(s2 + "-" + id2);
    SanitizeKeepsStem(s1, id1);
    SanitizeKeepsStem(s2, id2);
    if |s1| <= |s2| {
      assert n2[..|s1|] == s2[..|s1|];
      assert n1[..|s1|] != n2[..|s1|];
    } else {
      assert n1[..|s2|] == s1[..|s2|];
      assert n1[..|s2|] != n2[..|s2|];
    }
  }

  /** The worked example: `cf-r2-Beta!` becomes `cf-r2-beta`. */
  lemma SanitizeExample()
    ensures SanitizeName("cf-r2-Beta!") == "cf-r2-beta"
  {
    var u := ReplaceInvalid(ToLowerCase("cf-r2-Beta!"));
    assert u == "cf-r2-beta-";
    assert TrimLeading(u) == u;
    assert u[..|u| - 1] == "cf-r2-beta";
    assert TrimTrailing("cf-r2-beta") == "cf-r2-beta";
  }

  /** Sanitizing is not injective: identifiers that differ only in case give
      the same name. */
  lemma SanitizeNotInjective()
    ensures "cf-kv-A" != "cf-kv-a"
    ensures SanitizeName("cf-kv-A") == SanitizeName("cf-kv-a") == "cf-kv-a"
  {
    var u := ReplaceInvalid(ToLowerCase("cf-kv-A"));
    assert u == "cf-kv-a";
    assert TrimLeading(u) == u;
    assert TrimTrailing(u) == u;
    assert IsSanitized("cf-kv-a");
    SanitizedIsFixed("cf-kv-a");
  }
}
