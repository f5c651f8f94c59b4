// Character classes of the classic locale, and scanning over a string with a terminating null.
module Characters {

  predicate IsSpace(c: char) {
    c == ' ' || 9 <= c as int <= 13
  }

  predicate IsDigit(c: char) {
    '0' <= c <= '9'
  }

  predicate IsControl(c: char) {
    c as int < 32 || c as int == 127
  }

  predicate IsPunctuation(c: char) {
    '!' <= c <= '/' || ':' <= c <= '@' || '[' <= c <= '`' || '{' <= c <= '~'
  }

  // reading one past the end finds the terminating null
  function At(s: string, i: nat): char {
    if i < |s| then s[i] else 0 as char
  }

  // the length of the longest prefix whose characters all satisfy p
  function Run(s: string, p: char -> bool): (n: nat)
    ensures n <= |s|
    ensures forall k :: 0 <= k < n ==> p(s[k])
    ensures n < |s| ==> !p(s[n])
  {
    if s == "" || !p(s[0]) then 0 else 1 + Run(s[1..], p)
  }

  // a prefix that satisfies p up to a character that does not is the longest
  lemma {:induction false} RunIs(s: string, p: char -> bool, n: nat)
    requires n <= |s| && (forall k :: 0 <= k < n ==> p(s[k])) && (n < |s| ==> !p(s[n]))
    ensures Run(s, p) == n
  {
    if n > 0 {
      assert p(s[0]);
      assert forall k :: 0 <= k < n - 1 ==> s[1..][k] == s[k + 1];
      RunIs(s[1..], p, n - 1);
    }
  }

  // the first character of s that is c, from i on; beyond the end if there is none
  method Find(s: string, c: char, i: nat) returns (k: nat)
    requires i <= |s|
    ensures i <= k && (k < |s| || k == |s| + 1)
    ensures forall n :: i <= n < |s| && n < k ==> s[n] != c
    ensures k < |s| ==> s[k] == c
  {
    k := i;
    while k < |s|
      invariant i <= k <= |s|
      invariant forall n :: i <= n < k ==> s[n] != c
    {
      if s[k] == c {
        return;
      }
      k := k + 1;
    }
    k := |s| + 1;
  }

  method FindSpace(s: string, i: nat) returns (k: nat)
    requires i <= |s|
    ensures i <= k <= |s|
    ensures forall n :: i <= n < k ==> !IsSpace(s[n])
    ensures k < |s| ==> IsSpace(s[k])
  {
    k := i;
    while k < |s| && !IsSpace(s[k])
      invariant i <= k <= |s|
      invariant forall n :: i <= n < k ==> !IsSpace(s[n])
    {
      k := k + 1;
    }
  }

  method SkipSpace(s: string, i: nat) returns (k: nat)
    requires i <= |s|
    ensures i <= k <= |s|
    ensures forall n :: i <= n < k ==> IsSpace(s[n])
    ensures k < |s| ==> !IsSpace(s[k])
  {
    k := i;
    while k < |s| && IsSpace(s[k])
      invariant i <= k <= |s|
      invariant forall n :: i <= n < k ==> IsSpace(s[n])
    {
      k := k + 1;
    }
  }
}
