/**
 * The operator confirmation of the Python 2 library (slib2/s_input.py).
 * Printing the question and reading the line are I/O; what is modelled is
 * the decision taken on the line that was typed.
 */
module Slib2Input {
  import opened Text

  /** Whether a character is `c` or its upper-case form. */
  predicate IsLetter(ch: char, c: char)
    requires 'a' <= c <= 'z'
  {
    ch == c || ch == (c as int - 32) as char
  }

  /**
   * `input_confirm`: the answer confirms exactly when, lowercased, it is
   * `y` or `yes`; nothing is trimmed.
   */
  function InputConfirm(line: string): (r: bool)
    ensures r <==>
      (|line| == 1 && IsLetter(line[0], 'y')) ||
      (|line| == 3 && IsLetter(line[0], 'y') && IsLetter(line[1], 'e') && IsLetter(line[2], 's'))
  {
    var answer := Lower(line);
    assert |line| == 1 ==> (answer == "y" <==> IsLetter(line[0], 'y'));
    assert |line| == 3 ==> (answer == "yes" <==> IsLetter(line[0], 'y') && IsLetter(line[1], 'e') && IsLetter(line[2], 's'));
    if answer !in ["y", "yes"] then false else true
  }

  /** Any capitalisation of the two answers confirms. */
  lemma ConfirmIgnoresCase()
    ensures InputConfirm("y") && InputConfirm("Y")
    ensures InputConfirm("yes") && InputConfirm("YES") && InputConfirm("Yes") && InputConfirm("yEs")
  {
  }

  /** Surrounding blanks, the empty line and other words decline. */
  lemma OtherAnswersDecline()
    ensures !InputConfirm("") && !InputConfirm(" yes") && !InputConfirm("yes ") && !InputConfirm("y\n")
    ensures !InputConfirm("no") && !InputConfirm("ok") && !InputConfirm("ye") && !InputConfirm("yess")
  {
  }
}
