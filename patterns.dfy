/** The one regular expression of the instrument model, `^[0-9]{3}[0-9A-Z]{5}[0-9]$`, as
    data, and what Python's `re.match` does with it. */
module Patterns {
  import opened Wrappers

  /** A bracketed character class of the pattern. */
  datatype CharClass = Digit | DigitOrUpper

  /** A character class repeated exactly `count` times (`[...]{count}`). */
  datatype Atom = Repeat(cls: CharClass, count: nat)

  /** `Bond.regexCUSIP`: three digits, five digits or capital letters, one digit; anchored
      at both ends. */
  const RegexCusip: seq<Atom> := [Repeat(Digit, 3), Repeat(DigitOrUpper, 5), Repeat(Digit, 1)]

  /** `[0-9]` and `[0-9A-Z]`: ranges of code points, so only ASCII digits and capitals. */
  predicate InClass(cls: CharClass, c: char) {
    match cls
    case Digit => '0' <= c <= '9'
    case DigitOrUpper => '0' <= c <= '9' || 'A' <= c <= 'Z'
  }

  /** The number of characters the atoms consume at the start of `s`, if they match there.
      Every atom has a fixed width, so there is nothing to backtrack over. */
  function MatchPrefix(atoms: seq<Atom>, s: string): (r: Optional<nat>)
    ensures r.Some? ==> r.value <= |s|
    decreases |atoms|, if |atoms| == 0 then 0 else atoms[0].count
  {
    if |atoms| == 0 then Some(0)
    else if atoms[0].count == 0 then MatchPrefix(atoms[1..], s)
    else if |s| == 0 || !InClass(atoms[0].cls, s[0]) then None
    else
      match MatchPrefix([Repeat(atoms[0].cls, atoms[0].count - 1)] + atoms[1..], s[1..])
      case None => None
      case Some(n) => Some(n + 1)
  }

  /** Python's `$` outside multiline mode: the end of the string, or just before a newline
      that is the last character. */
  predicate AtEnd(s: string, pos: nat) {
    pos == |s| || (pos + 1 == |s| && s[pos] == '\n')
  }

  /** `re.match('^' + pattern + '$', s) is not None` for a pattern of fixed-width atoms. */
  predicate FullMatch(atoms: seq<Atom>, s: string) {
    match MatchPrefix(atoms, s)
    case None => false
    case Some(n) => AtEnd(s, n)
  }

  /** The character class the CUSIP pattern demands at position `i`. */
  function CusipClassAt(i: nat): CharClass {
    if 3 <= i < 8 then DigitOrUpper else Digit
  }

  /** Position by position, what the CUSIP pattern accepts. */
  predicate CusipShape(s: string) {
    |s| >= 9 && forall i | 0 <= i < 9 :: InClass(CusipClassAt(i), s[i])
  }

  /** The number of characters a sequence of atoms spans. */
  function Width(atoms: seq<Atom>): nat {
    if |atoms| == 0 then 0 else atoms[0].count + Width(atoms[1..])
  }

  /** The character class the atoms demand at position `i`. */
  function ClassAt(atoms: seq<Atom>, i: nat): CharClass
    requires i < Width(atoms)
  {
    if i < atoms[0].count then atoms[0].cls else ClassAt(atoms[1..], i - atoms[0].count)
  }

  /** The atoms match at the start of `s` exactly when `s` is long enough and each of its
      first `Width(atoms)` characters is in the class demanded there; a match consumes
      exactly that many characters. */
  lemma {:induction false} MatchPrefixSpec(atoms: seq<Atom>, s: string)
    ensures MatchPrefix(atoms, s).Some? <==>
      |s| >= Width(atoms) && forall i | 0 <= i < Width(atoms) :: InClass(ClassAt(atoms, i), s[i])
    ensures MatchPrefix(atoms, s).Some? ==> MatchPrefix(atoms, s).value == Width(atoms)
    decreases |atoms|, if |atoms| == 0 then 0 else atoms[0].count
  {
    if |atoms| == 0 {
    } else if atoms[0].count == 0 {
      MatchPrefixSpec(atoms[1..], s);
      forall i | 0 <= i < Width(atoms) ensures ClassAt(atoms, i) == ClassAt(atoms[1..], i) {
      }
    } else {
      var rest := [Repeat(atoms[0].cls, atoms[0].count - 1)] + atoms[1..];
      assert rest[1..] == atoms[1..];
      assert Width(rest) == Width(atoms) - 1;
      forall i | 0 <= i < Width(rest) ensures ClassAt(rest, i) == ClassAt(atoms, i + 1) {
      }
      if |s| == 0 || !InClass(atoms[0].cls, s[0]) {
        assert ClassAt(atoms, 0) == atoms[0].cls;
      } else {
        MatchPrefixSpec(rest, s[1..]);
        if |s| >= Width(atoms) && forall i | 0 <= i < Width(atoms) :: InClass(ClassAt(atoms, i), s[i]) {
          forall i | 0 <= i < Width(rest) ensures InClass(ClassAt(rest, i), s[1..][i]) {
            assert InClass(ClassAt(atoms, i + 1), s[i + 1]);
          }
        }
        if MatchPrefix(rest, s[1..]).Some? {
          forall i | 0 <= i < Width(atoms) ensures InClass(ClassAt(atoms, i), s[i]) {
            if i > 0 {
              assert InClass(ClassAt(rest, i - 1), s[1..][i - 1]);
            }
          }
        }
      }
    }
  }

  /** The CUSIP pattern spans nine characters, with the classes `CusipClassAt` names. */
  lemma CusipPatternLayout()
    ensures Width(RegexCusip) == 9
    ensures forall i | 0 <= i < 9 :: ClassAt(RegexCusip, i) == CusipClassAt(i)
  {
    var r := RegexCusip;
    assert r[1..] == [Repeat(DigitOrUpper, 5), Repeat(Digit, 1)];
    assert r[1..][1..] == [Repeat(Digit, 1)];
    assert r[1..][1..][1..] == [];
    assert Width(r) == 9;
    forall i | 0 <= i < 9 ensures ClassAt(r, i) == CusipClassAt(i) {
      if i >= 3 {
        assert ClassAt(r, i) == ClassAt(r[1..], i - 3);
        if i >= 8 {
          assert ClassAt(r[1..], i - 3) == ClassAt(r[1..][1..], i - 8);
        }
      }
    }
  }

  /** What `re.match(RegexCusip, s)` accepts, position by position: nine characters of the
      right classes, then the end of the string or a final newline. */
  lemma CusipMatchIff(s: string)
    ensures FullMatch(RegexCusip, s) <==> CusipShape(s) && (|s| == 9 || (|s| == 10 && s[9] == '\n'))
  {
    MatchPrefixSpec(RegexCusip, s);
    CusipPatternLayout();
  }
}
