/** The test for supplementary service codes, which are dialled but are not calls. */
module Ussd {

  predicate Digit(c: char)
  {
    '0' <= c <= '9'
  }

  /** Only digits and stars from `lo` up to `hi`. */
  ghost predicate Body(s: string, lo: nat, hi: int)
    requires hi <= |s|
  {
    forall k :: lo <= k < hi ==> Digit(s[k]) || s[k] == '*'
  }

  /** A star or a hash, then a body of at least one character, then a hash. */
  ghost predicate PlainCode(s: string)
  {
    |s| >= 3 && (s[0] == '*' || s[0] == '#') && Body(s, 1, |s| - 1) && s[|s| - 1] == '#'
  }

  /** A star or a hash, then a hash, then a body that may be empty, then a hash. */
  ghost predicate HashCode(s: string)
  {
    |s| >= 3 && (s[0] == '*' || s[0] == '#') && s[1] == '#' && Body(s, 2, |s| - 1) && s[|s| - 1] == '#'
  }

  /** The scan never backs up, so it is not obvious that it accepts exactly these two shapes: in
      particular a hash that ends the code is never taken for the optional second one. */
  method NumberIsUssd(number: string) returns (ussd: bool)
    ensures ussd <==> PlainCode(number) || HashCode(number)
  {
    if |number| == 0 || (number[0] != '*' && number[0] != '#') {
      return false;
    }
    var i := 1;
    if i < |number| && number[i] == '#' {
      i := 2;
    }
    ghost var from := i;
    while i < |number| && (Digit(number[i]) || number[i] == '*')
      invariant from <= i <= |number| && Body(number, from, i)
    {
      i := i + 1;
    }
    ussd := number[i..] == "#";
    assert ussd <==> i == |number| - 1 && number[i] == '#';
  }
}
