/**
 * The string-stream extractions the OBJ reader relies on: splitting a line
 * into whitespace-separated words (`iss >> token`), and, inside one word,
 * reading an int, reading one char and peeking at the next char, with the
 * failure rules of C++11 formatted input.
 */
module ObjStreams {

  /** The characters std::isspace accepts in the "C" locale. */
  predicate IsSpace(c: char) {
    c == ' ' || c == '\t' || c == '\n' || c == '\U{B}' || c == '\U{C}' || c == '\r'
  }

  predicate IsDigit(c: char) {
    '0' <= c <= '9'
  }

  predicate NoSpace(s: string) {
    forall i :: 0 <= i < |s| ==> !IsSpace(s[i])
  }

  predicate AllDigits(s: string) {
    forall i :: 0 <= i < |s| ==> IsDigit(s[i])
  }

  // ---------------------------------------------------------------------
  // Words of a line.

  /** Length of the run of non-space characters at the start of s. */
  function WordLength(s: string): (n: nat)
    ensures n <= |s|
    ensures forall i :: 0 <= i < n ==> !IsSpace(s[i])
    ensures n < |s| ==> IsSpace(s[n])
    decreases |s|
  {
    if s == [] || IsSpace(s[0]) then 0 else 1 + WordLength(s[1..])
  }

  /** The words `>> std::string` extracts from s, one after the other, until the stream runs dry. */
  function Tokens(s: string): (r: seq<string>)
    ensures forall k :: 0 <= k < |r| ==> r[k] != [] && NoSpace(r[k])
    decreases |s|
  {
    if s == [] then []
    else if IsSpace(s[0]) then Tokens(s[1..])
    else
      var n := WordLength(s);
      [s[..n]] + Tokens(s[n..])
  }

  /** The characters of s that are not whitespace, in order. */
  function NonSpace(s: string): string
    decreases |s|
  {
    if s == [] then [] else (if IsSpace(s[0]) then [] else [s[0]]) + NonSpace(s[1..])
  }

  function Concat(words: seq<string>): string
    decreases |words|
  {
    if words == [] then [] else words[0] + Concat(words[1..])
  }

  lemma {:induction false} NonSpaceOfWord(s: string)
    requires NoSpace(s)
    ensures NonSpace(s) == s
    decreases |s|
  {
    if s != [] {
      NonSpaceOfWord(s[1..]);
    }
  }

  lemma {:induction false} NonSpaceAppend(a: string, b: string)
    ensures NonSpace(a + b) == NonSpace(a) + NonSpace(b)
    decreases |a|
  {
    if a != [] {
      assert (a + b)[1..] == a[1..] + b;
      NonSpaceAppend(a[1..], b);
    } else {
      assert a + b == b;
    }
  }

  /** Splitting loses only whitespace: the words put back together are the line without its blanks. */
  lemma {:induction false} TokensKeepEveryVisibleChar(s: string)
    ensures Concat(Tokens(s)) == NonSpace(s)
    decreases |s|
  {
    if s != [] {
      if IsSpace(s[0]) {
        TokensKeepEveryVisibleChar(s[1..]);
      } else {
        var n := WordLength(s);
        TokensKeepEveryVisibleChar(s[n..]);
        assert s == s[..n] + s[n..];
        NonSpaceAppend(s[..n], s[n..]);
        NonSpaceOfWord(s[..n]);
        assert [s[..n]] + Tokens(s[n..]) == Tokens(s);
        assert ([s[..n]] + Tokens(s[n..]))[1..] == Tokens(s[n..]);
      }
    }
  }

  // ---------------------------------------------------------------------
  // Extraction from one word.

  /**
   * An istringstream over a word: the characters not yet consumed, and
   * whether failbit is set. A stream at its end behaves like one with
   * eofbit set: the next extraction fails.
   */
  datatype Stream = Stream(rest: string, failed: bool)

  function Open(word: string): Stream {
    Stream(word, false)
  }

  /** Length of the run of decimal digits at the start of s. */
  function DigitRun(s: string): (n: nat)
    ensures n <= |s| && AllDigits(s[..n])
    ensures n < |s| ==> !IsDigit(s[n])
    decreases |s|
  {
    if s == [] || !IsDigit(s[0]) then 0 else 1 + DigitRun(s[1..])
  }

  /** The number a run of decimal digits denotes. */
  function Value(digits: string): (v: nat)
    requires AllDigits(digits)
    decreases |digits|
  {
    if digits == [] then 0
    else
      var n := |digits| - 1;
      Value(digits[..n]) * 10 + (digits[n] as int - '0' as int)
  }

  /**
   * `stream >> int`, the previous value of the variable being prior. On a
   * failed or exhausted stream nothing is read and the variable keeps prior;
   * an optional sign followed by no digit fails and stores 0; otherwise the
   * longest run of digits is consumed. (Values beyond the int range are not
   * clamped here.)
   */
  function ReadInt(s: Stream, prior: int): (Stream, int) {
    if s.failed || s.rest == [] then (Stream(s.rest, true), prior)
    else
      var negative := s.rest[0] == '-';
      var signLength := if s.rest[0] == '-' || s.rest[0] == '+' then 1 else 0;
      var body := s.rest[signLength..];
      var n := DigitRun(body);
      if n == 0 then (Stream(body, true), 0)
      else (Stream(body[n..], false), if negative then -(Value(body[..n]) as int) else Value(body[..n]))
  }

  /** `stream >> char`: consumes one character; fails on a failed or exhausted stream. */
  function ReadChar(s: Stream): Stream {
    if s.failed || s.rest == [] then Stream(s.rest, true) else Stream(s.rest[1..], false)
  }

  /** `std::isdigit(stream.peek())`: peek yields EOF, which is no digit, unless the stream is good. */
  predicate PeekIsDigit(s: Stream) {
    !s.failed && s.rest != [] && IsDigit(s.rest[0])
  }

  /** A run of digits up to a non-digit or the end reads as its value, and only it is consumed. */
  lemma ReadIntOfDigits(digits: string, rest: string, prior: int)
    requires digits != [] && AllDigits(digits)
    requires rest == [] || !IsDigit(rest[0])
    ensures ReadInt(Open(digits + rest), prior) == (Open(rest), Value(digits))
  {
    var s := digits + rest;
    assert s[0] == digits[0];
    assert s[0..] == s;
    DigitRunOfDigits(digits, rest);
    assert s[..|digits|] == digits && s[|digits|..] == rest;
  }

  lemma {:induction false} DigitRunOfDigits(digits: string, rest: string)
    requires AllDigits(digits)
    requires rest == [] || !IsDigit(rest[0])
    ensures DigitRun(digits + rest) == |digits|
    decreases |digits|
  {
    if digits == [] {
      assert digits + rest == rest;
    } else {
      assert (digits + rest)[1..] == digits[1..] + rest;
      DigitRunOfDigits(digits[1..], rest);
    }
  }

  /** Reading an int from a word that does not start with a digit or a sign fails and stores 0. */
  lemma ReadIntOfNonNumber(s: string, prior: int)
    requires s != [] && !IsDigit(s[0]) && s[0] != '-' && s[0] != '+'
    ensures ReadInt(Open(s), prior).1 == 0 && ReadInt(Open(s), prior).0.failed
  {
    assert s[0..] == s;
  }

  /** Once failbit is set, every later extraction is a no-op that keeps the variable. */
  lemma FailedStreamKeepsValues(s: Stream, prior: int)
    requires s.failed
    ensures ReadInt(s, prior) == (s, prior)
    ensures ReadChar(s) == s && !PeekIsDigit(s)
  {
  }
}
