/** plugin/non_translating_ui.go: reading a yes/no answer from the user. */
module ConfirmUI {

  /** Lower-casing of one rune. Only ASCII letters are mapped: no other rune lower-cases to
      'y', 'e' or 's', so the answers Confirm accepts are the same as with full Unicode. */
  function LowerRune(c: char): char
  {
    if 'A' <= c <= 'Z' then (c as int + 32) as char else c
  }

  /** strings.ToLower, rune by rune. */
  function ToLower(s: string): (r: string)
    ensures |r| == |s|
    ensures forall k :: 0 <= k < |s| ==> r[k] == LowerRune(s[k])
  {
    if s == [] then [] else [LowerRune(s[0])] + ToLower(s[1..])
  }

  /** "y" or "yes", each letter in either case. */
  predicate Affirmative(s: string)
  {
    || (|s| == 1 && s[0] in "yY")
    || (|s| == 3 && s[0] in "yY" && s[1] in "eE" && s[2] in "sS")
  }

  /** `Confirm`: asks `message` unchanged (the extra arguments are ignored) and accepts the answer
      exactly when it lower-cases to "y" or "yes"; nothing is trimmed. */
  function Confirm(message: string, args: seq<string>, ask: string -> string): (r: bool)
    ensures r <==> Affirmative(ask(message))
  {
    var response := ToLower(ask(message));
    ConfirmAcceptsExactly(ask(message));
    response == "y" || response == "yes"
  }

  /** A rune lower-cases to an ASCII lower-case letter exactly when it is that letter in
      either case. */
  lemma LowerRuneTo(c: char, lower: char)
    requires 'a' <= lower <= 'z'
    ensures LowerRune(c) == lower <==> c == lower || c == (lower as int - 32) as char
  {
  }

  lemma ToLowerOfOne(s: string)
    requires |s| == 1
    ensures ToLower(s) == [LowerRune(s[0])]
  {
  }

  lemma ToLowerOfThree(s: string)
    requires |s| == 3
    ensures ToLower(s) == [LowerRune(s[0]), LowerRune(s[1]), LowerRune(s[2])]
  {
  }

  lemma ConfirmAcceptsExactly(s: string)
    ensures ToLower(s) == "y" || ToLower(s) == "yes" <==> Affirmative(s)
  {
    if |s| == 1 {
      ToLowerOfOne(s);
      LowerRuneTo(s[0], 'y');
    } else if |s| == 3 {
      ToLowerOfThree(s);
      LowerRuneTo(s[0], 'y');
      LowerRuneTo(s[1], 'e');
      LowerRuneTo(s[2], 's');
    } else {
      assert |ToLower(s)| == |s|;
    }
  }

  /** Answers the tests pin down: any case of y/yes is accepted; everything else, including
      padded answers, is refused. */
  lemma ConfirmExamples(message: string, args: seq<string>)
    ensures Confirm(message, args, _ => "Yes")
    ensures !Confirm(message, args, _ => "ye")
    ensures !Confirm(message, args, _ => " y")
    ensures !Confirm(message, args, _ => "yes\n")
    ensures !Confirm(message, args, _ => "")
    ensures !Confirm(message, args, _ => "no")
  {
  }
}
