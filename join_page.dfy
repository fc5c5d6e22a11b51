/**
 * The invite-code page (src/app/join/page.tsx): the code field keeps at
 * most six characters and upper-cases what is typed; joining navigates to
 * the code's own page when the trimmed code is not empty; the button is
 * enabled only for a code of exactly six characters.
 */
module JoinPage {
  import opened Wrappers
  import opened Text

  /** The field's `maxLength`. */
  const CodeLength := 6

  /** The value stored after typing `typed` into the field: the browser
      keeps at most six characters, and `onChange` upper-cases them. */
  function CodeAfterInput(typed: string): (code: string)
    ensures |code| == Min(CodeLength, |typed|) && NoLower(code)
    ensures forall i :: 0 <= i < |code| ==> code[i] == UpperChar(typed[i])
  {
    Upper(Take(typed, CodeLength))
  }

  /** Re-entering a stored code changes nothing. */
  lemma CodeAfterInputIdempotent(typed: string)
    ensures CodeAfterInput(CodeAfterInput(typed)) == CodeAfterInput(typed)
  {
    var code := CodeAfterInput(typed);
    assert Take(code, CodeLength) == code;
    UpperKeepsUpper(code);
  }

  /** The join button is enabled only for exactly six characters. */
  predicate JoinEnabled(code: string) {
    |code| == CodeLength
  }

  /** Because the field keeps at most six characters, the button is enabled
      exactly when at least six were typed. */
  lemma EnabledAfterSixTyped(typed: string)
    ensures JoinEnabled(CodeAfterInput(typed)) <==> |typed| >= CodeLength
  {
  }

  /** `handleJoin`: navigates to '/join/' followed by the trimmed,
      upper-cased code, and nowhere when the code is blank. */
  function HandleJoin(code: string): (destination: Option<string>)
    ensures destination.None? <==> Blank(code)
    ensures destination.Some? ==> destination.value == "/join/" + Upper(Trim(code))
  {
    if Blank(code) then None else Some("/join/" + Upper(Trim(code)))
  }

  /** The code in the destination is the code upper-cased and then
      trimmed; it is not empty, has no lower-case letter and no surrounding
      white space. */
  lemma DestinationNormalised(code: string)
    requires !Blank(code)
    ensures HandleJoin(code) == Some("/join/" + Trim(Upper(code)))
    ensures var c := Trim(Upper(code));
      c != [] && NoLower(c) && !IsSpace(c[0]) && !IsSpace(c[|c| - 1])
  {
    TrimUpperCommute(code);
    TrimmedUpper(code);
  }

  /** Joining with the upper-cased code goes to the same place, so the
      field's upper-casing does not change where the page navigates. */
  lemma JoinIgnoresCase(code: string)
    ensures HandleJoin(Upper(code)) == HandleJoin(code)
  {
    TrimUpperCommute(code);
    UpperIdempotent(Trim(code));
    UpperKeepsBlank(code);
  }

  /** The button and the navigation use different tests: six spaces enable
      the button, yet joining with them goes nowhere. */
  lemma EnabledButBlank()
    ensures JoinEnabled("      ") && HandleJoin("      ").None?
  {
    assert Blank("      ");
  }
}
