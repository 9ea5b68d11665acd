/** Reading pitches out of the names the tables use. The notes of the catalogue carry
    no pitch number, only a scientific pitch name such as "C#5"; the chromatic scale
    carries lower-case identifiers such as "c_sharp" or "bb". These readers give the
    independent reference against which the tables and the transposition lookup are
    checked. */
module Pitch {
  import opened Types

  /** Semitone of a natural note letter above C in the same octave. */
  function LetterSemitone(c: char): (r: Option<int>)
    ensures r.Some? ==> 0 <= r.value < 12
  {
    if c == 'C' then Some(0)
    else if c == 'D' then Some(2)
    else if c == 'E' then Some(4)
    else if c == 'F' then Some(5)
    else if c == 'G' then Some(7)
    else if c == 'A' then Some(9)
    else if c == 'B' then Some(11)
    else None
  }

  function Accidental(c: char): (r: Option<int>)
    ensures r.Some? ==> -1 <= r.value <= 1 && r.value != 0
  {
    if c == '#' then Some(1) else if c == 'b' then Some(-1) else None
  }

  function Digit(c: char): (r: Option<int>)
    ensures r.Some? ==> 0 <= r.value < 10
  {
    if '0' <= c <= '9' then Some(c as int - '0' as int) else None
  }

  /** Absolute semitone number of a scientific pitch name (C0 is 0): a letter, an
      optional accidental and a one-digit octave. */
  function ScientificSemitone(s: string): Option<int> {
    if |s| == 2 && LetterSemitone(s[0]).Some? && Digit(s[1]).Some? then
      Some(12 * Digit(s[1]).value + LetterSemitone(s[0]).value)
    else if |s| == 3 && LetterSemitone(s[0]).Some? && Accidental(s[1]).Some? && Digit(s[2]).Some? then
      Some(12 * Digit(s[2]).value + LetterSemitone(s[0]).value + Accidental(s[1]).value)
    else None
  }

  /** Pitch class (0 = C) of a scientific pitch name. */
  function ScientificPitchClass(s: string): (r: Option<int>)
    ensures r.Some? ==> 0 <= r.value < 12
  {
    match ScientificSemitone(s)
    case Some(n) => Some(n % 12)
    case None => None
  }

  /** Pitch class of a chromatic-scale identifier: a lower-case letter, then nothing,
      "_sharp" or "b". */
  function PitchIdClass(id: string): (r: Option<int>)
    ensures r.Some? ==> 0 <= r.value < 12
  {
    if |id| == 0 then None
    else
      var letter := LetterSemitone(if 'a' <= id[0] <= 'z' then (id[0] as int - 32) as char else id[0]);
      if letter.None? then None
      else if id[1..] == "" then Some(letter.value)
      else if id[1..] == "_sharp" then Some((letter.value + 1) % 12)
      else if id[1..] == "b" then Some((letter.value + 11) % 12)
      else None
  }
}
