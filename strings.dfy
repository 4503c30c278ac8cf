/** The two JavaScript string operations the rules rely on. */
module Strings {

  /** String `includes`: `sub` occurs in `s` as a contiguous block. */
  function Contains(s: string, sub: string): (r: bool)
    ensures r <==> exists i :: 0 <= i <= |s| && sub <= s[i..]
    decreases |s|
  {
    if sub <= s then
      assert s[0..] == s;
      true
    else if |s| == 0 then
      false
    else
      var rest := Contains(s[1..], sub);
      assert forall i :: 0 <= i <= |s| - 1 ==> s[1..][i..] == s[i + 1..];
      if rest then
        var i :| 0 <= i <= |s| - 1 && sub <= s[1..][i..];
        assert sub <= s[i + 1..];
        true
      else
        assert forall i :: 0 < i <= |s| ==> !(sub <= s[i..]) by {
          forall i | 0 < i <= |s| ensures !(sub <= s[i..]) {
            assert s[1..][i - 1..] == s[i..];
          }
        }
        assert s[0..] == s;
        false
  }

  /** Lower-cases one ASCII letter and leaves every other character alone. */
  function LowerChar(c: char): char
  {
    if 'A' <= c <= 'Z' then (c as int - 'A' as int + 'a' as int) as char else c
  }

  /** String lower-casing, restricted to ASCII letters. */
  function ToLower(s: string): (r: string)
    ensures |r| == |s|
    ensures forall i :: 0 <= i < |s| ==> r[i] == LowerChar(s[i])
  {
    seq(|s|, i requires 0 <= i < |s| => LowerChar(s[i]))
  }
}
