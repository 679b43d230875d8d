/**
 * Path concatenation: `+` joins two raw path strings around the `/`
 * separator, and `/`, `+=` and `/=` are defined in terms of it.
 *
 * The `Path` type itself is not part of this model; a path is represented
 * by its raw string, and building a path from a string keeps that string.
 */
module PathOperators {

  datatype Path = Path(rawValue: string)

  const Separator: char := '/'

  /** An empty or "." raw value: such an operand is dropped by `+`. */
  predicate IsTrivial(s: string) {
    s == "" || s == "."
  }

  predicate EndsWithSeparator(s: string) {
    |s| > 0 && s[|s| - 1] == Separator
  }

  predicate StartsWithSeparator(s: string) {
    |s| > 0 && s[0] == Separator
  }

  /** `s` without its last character when that is a separator. */
  function DropTrailingSeparator(s: string): string {
    if EndsWithSeparator(s) then s[..|s| - 1] else s
  }

  /** `s` without its first character when that is a separator. */
  function DropLeadingSeparator(s: string): string {
    if StartsWithSeparator(s) then s[1..] else s
  }

  /** No two separators are adjacent in `s`. */
  predicate NoDoubleSeparator(s: string) {
    forall i :: 0 <= i < |s| - 1 ==> !(s[i] == Separator && s[i + 1] == Separator)
  }

  /** `lhs + rhs` for two paths. */
  function Plus(lhs: Path, rhs: Path): (r: Path)
    ensures IsTrivial(lhs.rawValue) ==> r == rhs
    ensures !IsTrivial(lhs.rawValue) && IsTrivial(rhs.rawValue) ==> r == lhs
    ensures !IsTrivial(lhs.rawValue) ==> lhs.rawValue <= r.rawValue
  {
    var l, s := lhs.rawValue, rhs.rawValue;
    if IsTrivial(l) then rhs
    else if IsTrivial(s) then lhs
    else
      match (EndsWithSeparator(l), StartsWithSeparator(s))
      case (true, true) => Path(l + s[1..])
      case (false, false) => Path(l + [Separator] + s)
      case _ => Path(l + s)
  }

  /** With two non-trivial operands, `+` is one formula for all four cases: both
      sides lose a separator at the join, and exactly one is put back. */
  lemma PlusJoinsWithOneSeparator(lhs: Path, rhs: Path)
    requires !IsTrivial(lhs.rawValue) && !IsTrivial(rhs.rawValue)
    ensures Plus(lhs, rhs).rawValue
         == DropTrailingSeparator(lhs.rawValue) + [Separator] + DropLeadingSeparator(rhs.rawValue)
  {
    var l, s := lhs.rawValue, rhs.rawValue;
    if EndsWithSeparator(l) {
      assert l == l[..|l| - 1] + [Separator];
      if StartsWithSeparator(s) {
        assert Plus(lhs, rhs).rawValue == l + s[1..];
      } else {
        assert Plus(lhs, rhs).rawValue == l + s;
      }
    } else if StartsWithSeparator(s) {
      assert s == [Separator] + s[1..];
      assert Plus(lhs, rhs).rawValue == l + s;
    }
  }

  /** The separator cases of `+` spelled out: a doubled separator at the join is
      collapsed to one, a missing one is inserted, a single one is kept. */
  lemma PlusSeparatorCases(lhs: Path, rhs: Path)
    requires !IsTrivial(lhs.rawValue) && !IsTrivial(rhs.rawValue)
    ensures EndsWithSeparator(lhs.rawValue) && StartsWithSeparator(rhs.rawValue)
            ==> Plus(lhs, rhs).rawValue == lhs.rawValue + rhs.rawValue[1..]
    ensures !EndsWithSeparator(lhs.rawValue) && !StartsWithSeparator(rhs.rawValue)
            ==> Plus(lhs, rhs).rawValue == lhs.rawValue + "/" + rhs.rawValue
    ensures EndsWithSeparator(lhs.rawValue) != StartsWithSeparator(rhs.rawValue)
            ==> Plus(lhs, rhs).rawValue == lhs.rawValue + rhs.rawValue
  {
  }

  /** `+` never creates a doubled separator: if neither operand has one, the result has none. */
  lemma PlusNoDoubleSeparator(lhs: Path, rhs: Path)
    requires NoDoubleSeparator(lhs.rawValue) && NoDoubleSeparator(rhs.rawValue)
    ensures NoDoubleSeparator(Plus(lhs, rhs).rawValue)
  {
    var l, s := lhs.rawValue, rhs.rawValue;
    if !IsTrivial(l) && !IsTrivial(s) {
      var r := Plus(lhs, rhs).rawValue;
      var tail := DropLeadingSeparator(s);
      var head := DropTrailingSeparator(l);
      PlusJoinsWithOneSeparator(lhs, rhs);
      assert r == head + [Separator] + tail;
      forall i | 0 <= i < |r| - 1
        ensures !(r[i] == Separator && r[i + 1] == Separator)
      {
        if i + 1 < |head| {
          assert r[i] == l[i] && r[i + 1] == l[i + 1];
        } else if i + 1 == |head| {
          assert r[i] == l[i];
          assert r[i + 1] == Separator;
          if EndsWithSeparator(l) {
            assert l[i + 1] == Separator;
          }
        } else if i == |head| {
          assert r[i + 1] == tail[0];
          if StartsWithSeparator(s) {
            assert tail[0] == s[1];
          } else {
            assert tail[0] == s[0];
          }
        } else {
          var j := i - |head| - 1;
          assert r[i] == tail[j] && r[i + 1] == tail[j + 1];
          if StartsWithSeparator(s) {
            assert tail[j] == s[j + 1] && tail[j + 1] == s[j + 2];
          }
        }
      }
    }
  }

  /** `String + Path`: the string is made a path first. */
  function PlusStringPath(lhs: string, rhs: Path): (r: Path)
    ensures r == Plus(Path(lhs), rhs)
  {
    Plus(Path(lhs), rhs)
  }

  /** `Path + String`: the string is made a path first. */
  function PlusPathString(lhs: Path, rhs: string): (r: Path)
    ensures r == Plus(lhs, Path(rhs))
  {
    Plus(lhs, Path(rhs))
  }

  /** `lhs += rhs`: the new value of `lhs` is `lhs + rhs`. */
  method PlusAssign(lhs: Path, rhs: Path) returns (lhs': Path)
    ensures lhs' == Plus(lhs, rhs)
  {
    lhs' := Plus(lhs, rhs);
  }

  /** `lhs += rhs` with a string operand. */
  method PlusAssignString(lhs: Path, rhs: string) returns (lhs': Path)
    ensures lhs' == Plus(lhs, Path(rhs))
  {
    lhs' := PlusPathString(lhs, rhs);
  }

  /** `lhs / rhs` is `lhs + rhs`. */
  function Slash(lhs: Path, rhs: Path): (r: Path)
    ensures r == Plus(lhs, rhs)
  {
    Plus(lhs, rhs)
  }

  /** `Path / String` is `Path + String`. */
  function SlashPathString(lhs: Path, rhs: string): (r: Path)
    ensures r == Plus(lhs, Path(rhs))
  {
    PlusPathString(lhs, rhs)
  }

  /** `String / Path` is `String + Path`. */
  function SlashStringPath(lhs: string, rhs: Path): (r: Path)
    ensures r == Plus(Path(lhs), rhs)
  {
    PlusStringPath(lhs, rhs)
  }

  /** `lhs /= rhs` is `lhs += rhs`. */
  method SlashAssign(lhs: Path, rhs: Path) returns (lhs': Path)
    ensures lhs' == Plus(lhs, rhs)
  {
    lhs' := PlusAssign(lhs, rhs);
  }

  /** `lhs /= rhs` with a string operand is `lhs += rhs`. */
  method SlashAssignString(lhs: Path, rhs: string) returns (lhs': Path)
    ensures lhs' == Plus(lhs, Path(rhs))
  {
    lhs' := PlusAssignString(lhs, rhs);
  }

  /** The documented example: "/System/Library" + "Fonts" is "/System/Library/Fonts". */
  lemma PlusExample()
    ensures PlusPathString(Path("/System/Library"), "Fonts") == Path("/System/Library/Fonts")
  {
  }
}
