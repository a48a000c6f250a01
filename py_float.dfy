/**
  The test `isNumber(string)` of the sitemap generator: a line counts as a
  number exactly when `float()` of Python 3.6 and later accepts it. This module gives that
  acceptance, for ASCII text, as a finite automaton that reads the text one
  character at a time:

    surrounding whitespace (space, tab, LF, VT, FF, CR) is ignored;
    then an optional sign;
    then either `inf`, `infinity` or `nan` in any letter case,
    or digits with an optional fraction and an optional exponent,
    where a single `_` may stand between two digits.
 */
module PyFloat {

  /** The characters `float()` strips around a number: space and TAB..CR. */
  predicate IsSpace(c: char) {
    c == ' ' || '\t' <= c <= '\r'
  }

  predicate IsDigit(c: char) {
    '0' <= c <= '9'
  }

  predicate IsSign(c: char) {
    c == '+' || c == '-'
  }

  /** `c` is the lower-case letter `l` in either case. */
  predicate IsLetter(c: char, l: char)
    requires 'a' <= l <= 'z'
  {
    c == l || c as int == l as int - 32
  }

  /** What the scanner has read so far. */
  datatype State =
    | Lead            // only whitespace
    | Sign            // whitespace and a sign
    | Whole           // digits (accepting)
    | WholeSep        // digits and a `_`
    | Dot             // a `.` with no digits before it
    | Point           // digits and a `.` (accepting)
    | Fraction        // digits after the `.` (accepting)
    | FractionSep     // fraction digits and a `_`
    | Exp             // a mantissa and `e` or `E`
    | ExpSign         // the exponent's sign
    | ExpDigits       // exponent digits (accepting)
    | ExpSep          // exponent digits and a `_`
    | Spelled(word: string, n: nat)   // the first `n` letters of `word`
    | Trail           // a complete number and whitespace (accepting)
    | Reject          // no continuation is a number

  /** The words `float()` reads as infinity or not-a-number. */
  const Infinity: string := "infinity"
  const NaN: string := "nan"

  /** `Spelled(w, n)` is accepting when its letters form a whole word. */
  predicate Accepting(q: State) {
    match q
    case Whole | Point | Fraction | ExpDigits | Trail => true
    case Spelled(w, n) => (w == Infinity && (n == 3 || n == 8)) || (w == NaN && n == 3)
    case _ => false
  }

  /** The next letter of a word being spelled. */
  function Spell(w: string, n: nat, c: char): State
    requires w == Infinity || w == NaN
  {
    if n < |w| && IsLetter(c, w[n]) then Spelled(w, n + 1) else Reject
  }

  /** One character read in state `q`. */
  function Step(q: State, c: char): State {
    match q
    case Lead =>
      if IsSpace(c) then Lead
      else if IsSign(c) then Sign
      else if IsDigit(c) then Whole
      else if c == '.' then Dot
      else if IsLetter(c, 'i') then Spelled(Infinity, 1)
      else if IsLetter(c, 'n') then Spelled(NaN, 1)
      else Reject
    case Sign =>
      if IsDigit(c) then Whole
      else if c == '.' then Dot
      else if IsLetter(c, 'i') then Spelled(Infinity, 1)
      else if IsLetter(c, 'n') then Spelled(NaN, 1)
      else Reject
    case Whole =>
      if IsDigit(c) then Whole
      else if c == '_' then WholeSep
      else if c == '.' then Point
      else if IsLetter(c, 'e') then Exp
      else if IsSpace(c) then Trail
      else Reject
    case WholeSep => if IsDigit(c) then Whole else Reject
    case Dot => if IsDigit(c) then Fraction else Reject
    case Point =>
      if IsDigit(c) then Fraction
      else if IsLetter(c, 'e') then Exp
      else if IsSpace(c) then Trail
      else Reject
    case Fraction =>
      if IsDigit(c) then Fraction
      else if c == '_' then FractionSep
      else if IsLetter(c, 'e') then Exp
      else if IsSpace(c) then Trail
      else Reject
    case FractionSep => if IsDigit(c) then Fraction else Reject
    case Exp =>
      if IsSign(c) then ExpSign
      else if IsDigit(c) then ExpDigits
      else Reject
    case ExpSign => if IsDigit(c) then ExpDigits else Reject
    case ExpDigits =>
      if IsDigit(c) then ExpDigits
      else if c == '_' then ExpSep
      else if IsSpace(c) then Trail
      else Reject
    case ExpSep => if IsDigit(c) then ExpDigits else Reject
    case Spelled(w, n) =>
      if IsSpace(c) then (if Accepting(q) then Trail else Reject)
      else if w == Infinity || w == NaN then Spell(w, n, c)
      else Reject
    case Trail => if IsSpace(c) then Trail else Reject
    case Reject => Reject
  }

  /** The state after reading all of `s` from `q`. */
  function Run(q: State, s: string): State
    decreases |s|
  {
    if s == [] then q else Run(Step(q, s[0]), s[1..])
  }

  /** `isNumber`: does `float(s)` succeed? */
  predicate IsNumber(s: string) {
    Accepting(Run(Lead, s))
  }

  /** Reading `s` and then `c` is one more step after reading `s`. */
  lemma {:induction false} RunSnoc(q: State, s: string, c: char)
    ensures Run(q, s + [c]) == Step(Run(q, s), c)
    decreases |s|
  {
    if s != [] {
      assert (s + [c])[0] == s[0];
      assert (s + [c])[1..] == s[1..] + [c];
      RunSnoc(Step(q, s[0]), s[1..], c);
    }
  }

  /** Once rejected, always rejected. */
  lemma {:induction false} RunReject(s: string)
    ensures Run(Reject, s) == Reject
    decreases |s|
  {
    if s != [] {
      RunReject(s[1..]);
    }
  }

  /** A text whose first character cannot begin a number is not one. */
  lemma BadStartIsNotNumber(s: string)
    requires s != [] && Step(Lead, s[0]) == Reject
    ensures !IsNumber(s)
  {
    RunReject(s[1..]);
  }

  /** Whitespace read from the start leaves the scanner at the start. */
  lemma {:induction false} RunSpaces(s: string)
    requires forall i :: 0 <= i < |s| ==> IsSpace(s[i])
    ensures Run(Lead, s) == Lead
    decreases |s|
  {
    if s != [] {
      RunSpaces(s[1..]);
    }
  }

  /** Nothing that is only whitespace is a number; in particular neither the
      end-of-file result `""` nor a blank line `"\n"` is one. */
  lemma BlankIsNotNumber(s: string)
    requires forall i :: 0 <= i < |s| ==> IsSpace(s[i])
    ensures !IsNumber(s)
  {
    RunSpaces(s);
  }

  /** `float()` ignores trailing whitespace, so a text and the same text
      followed by one more whitespace character are numbers together or not
      at all. */
  lemma TrailingSpaceKeepsNumber(s: string, c: char)
    requires IsSpace(c)
    ensures IsNumber(s + [c]) <==> IsNumber(s)
  {
    RunSnoc(Lead, s, c);
  }

  lemma NewlineKeepsNumber(s: string)
    ensures IsNumber(s + "\n") <==> IsNumber(s)
  {
    TrailingSpaceKeepsNumber(s, '\n');
  }
}
