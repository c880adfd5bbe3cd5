/**
 The part of the C string library the shim relies on: `strncmp` over
 NUL-terminated strings. A C string is modelled by the characters before its
 terminator; reading at or past the end of the sequence yields the NUL
 terminator. Characters stand for the bytes C compares: the comparison runs
 character by character, counts characters and returns the difference of
 two code points, which agrees with C on ASCII text such as `/proc/`.
 */
module CString {

  const NUL: char := '\0'

  /** The character a C loop reads at offset `i` of the NUL-terminated string `s`. */
  function CharAt(s: string, i: nat): char
  {
    if i < |s| then s[i] else NUL
  }

  /**
   `strncmp(s, t, n)` resumed at offset `i`: compares at most `n` characters,
   stops at the first difference (returning the difference of the two) or at
   a common terminator (returning 0).
   */
  function StrncmpFrom(s: string, t: string, i: nat, n: nat): (r: int)
    ensures r != 0 ==> exists k :: i <= k < n && CharAt(s, k) != CharAt(t, k)
    decreases n - i
  {
    if n <= i then 0
    else if CharAt(s, i) != CharAt(t, i) then CharAt(s, i) as int - CharAt(t, i) as int
    else if CharAt(s, i) == NUL then 0
    else StrncmpFrom(s, t, i + 1, n)
  }

  /** `strncmp(s, t, n)`: nonzero only when the two C strings differ within their first `n` characters. */
  function Strncmp(s: string, t: string, n: nat): (r: int)
    ensures r != 0 ==> exists k :: 0 <= k < n && CharAt(s, k) != CharAt(t, k)
  {
    StrncmpFrom(s, t, 0, n)
  }

  /**
   When `t` holds no terminator in its first `n` characters, `StrncmpFrom` is zero
   exactly when `s` carries the same characters as `t` at offsets `i` to `n - 1`.
   */
  lemma {:induction false} StrncmpFromZeroIffAgree(s: string, t: string, i: nat, n: nat)
    requires i <= n <= |t|
    requires forall k :: i <= k < n ==> t[k] != NUL
    ensures StrncmpFrom(s, t, i, n) == 0 <==> forall k :: i <= k < n ==> CharAt(s, k) == t[k]
    decreases n - i
  {
    if i < n {
      assert CharAt(t, i) == t[i];
      if CharAt(s, i) == t[i] {
        StrncmpFromZeroIffAgree(s, t, i + 1, n);
      }
    }
  }

  /**
   Against a pattern `t` of at least `n` non-NUL characters, `strncmp(s, t, n) == 0`
   holds exactly when `s` is at least `n` characters long and begins with the
   first `n` characters of `t`. A shorter `s` never matches: its terminator
   meets a non-NUL character of `t`.
   */
  lemma StrncmpZeroIffPrefix(s: string, t: string, n: nat)
    requires n <= |t|
    requires forall k :: 0 <= k < n ==> t[k] != NUL
    ensures Strncmp(s, t, n) == 0 <==> n <= |s| && s[..n] == t[..n]
  {
    StrncmpFromZeroIffAgree(s, t, 0, n);
    if forall k :: 0 <= k < n ==> CharAt(s, k) == t[k] {
      if 0 < n {
        assert CharAt(s, n - 1) == t[n - 1];
      }
      assert forall k :: 0 <= k < n ==> s[..n][k] == t[..n][k];
    }
    if n <= |s| && s[..n] == t[..n] {
      assert forall k :: 0 <= k < n ==> CharAt(s, k) == s[..n][k];
    }
  }
}
