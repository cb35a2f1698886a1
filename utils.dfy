/** utils/utils.go: the ASCII letter test the TLE checksum uses to skip letters. */
module Utils {

  /** True for the 52 ASCII letters, whose codes are 65..90 and 97..122. */
  predicate IsALetter(element: char)
    ensures IsALetter(element) <==> 65 <= element as int <= 90 || 97 <= element as int <= 122
  {
    ('a' <= element <= 'z') || ('A' <= element <= 'Z')
  }

  lemma DigitsAreNotLetters(c: char)
    requires '0' <= c <= '9'
    ensures !IsALetter(c)
  {
  }

  /** The separators that occur in a TLE line are not letters either. */
  lemma SeparatorsAreNotLetters()
    ensures !IsALetter(' ') && !IsALetter('.') && !IsALetter('+') && !IsALetter('-')
  {
  }

  /** The characters on either side of the two letter ranges are excluded. */
  lemma LetterRangeBoundaries()
    ensures !IsALetter('@') && !IsALetter('[') && !IsALetter('`') && !IsALetter('{')
    ensures IsALetter('A') && IsALetter('Z') && IsALetter('a') && IsALetter('z')
  {
  }
}
