/** The tool-name policy of lib/validation/tool-name.ts. */
module ToolName {
  import opened JsText

  /** `{ valid, error? }` of a single-value check. */
  datatype Check = Pass | Fail(error: string)

  const NameRequired := "Name is required"
  const NameTooLong := "Name must be 64 characters or less"
  const NameBadChars := "Name can only contain letters, numbers, _, -, and ."
  const MaxNameLength := 64

  /** The character class `[a-zA-Z0-9_.-]`. */
  predicate NameChar(c: char)
  {
    ('a' <= c <= 'z') || ('A' <= c <= 'Z') || ('0' <= c <= '9') || c == '_' || c == '.' || c == '-'
  }

  /** `/^[a-zA-Z0-9_.-]+$/.test(s)`. */
  predicate MatchesNamePattern(s: string)
  {
    |s| > 0 && forall i :: 0 <= i < |s| ==> NameChar(s[i])
  }

  /**
   * Blank first, then the length limit, then the pattern. A name passes
   * exactly when it has 1 to 64 characters, all from the allowed class.
   */
  function ValidateToolName(name: string): (r: Check)
    ensures r.Pass? <==> 0 < |name| <= MaxNameLength && forall i :: 0 <= i < |name| ==> NameChar(name[i])
    ensures r.Fail? ==> r.error in {NameRequired, NameTooLong, NameBadChars}
    ensures r == Fail(NameRequired) <==> IsBlank(name)
  {
    PatternIsAsciiNotBlank(name);
    if IsBlank(name) then Fail(NameRequired)
    else if JsLength(name) > MaxNameLength then Fail(NameTooLong)
    else if !MatchesNamePattern(name) then Fail(NameBadChars)
    else Pass
  }

  /** A name of allowed characters is never blank and its JavaScript length is its length. */
  lemma PatternIsAsciiNotBlank(s: string)
    ensures MatchesNamePattern(s) ==> !IsBlank(s) && JsLength(s) == |s|
  {
    if MatchesNamePattern(s) {
      assert !IsWhitespace(s[0]);
    }
  }

  /** The length test runs before the pattern test: a long name reports its length, whatever it contains. */
  lemma LengthBeforePattern(name: string)
    requires !IsBlank(name) && JsLength(name) > MaxNameLength
    ensures ValidateToolName(name) == Fail(NameTooLong)
  {
  }

  /** A name that is neither blank nor too long, with a character outside the class, reports the pattern. */
  lemma PatternReported(name: string, i: nat)
    requires !IsBlank(name) && JsLength(name) <= MaxNameLength
    requires i < |name| && !NameChar(name[i])
    ensures ValidateToolName(name) == Fail(NameBadChars)
  {
  }

  lemma ExampleGetWeather()
    ensures ValidateToolName("get_weather").Pass?
  {
    var s := "get_weather";
    assert forall i :: 0 <= i < |s| ==> NameChar(s[i]);
  }

  lemma ExampleDotted()
    ensures ValidateToolName("a.b-c_1").Pass?
  {
  }

  lemma ExampleBadName()
    ensures ValidateToolName("bad name!") == Fail(NameBadChars)
  {
    var s := "bad name!";
    assert !IsWhitespace(s[0]);
    assert !NameChar(s[3]);
    assert JsLength(s) == 9;
  }

  lemma ExampleEmpty()
    ensures ValidateToolName("") == Fail(NameRequired)
    ensures ValidateToolName("   ") == Fail(NameRequired)
  {
  }

  /** A 65-character name with a space in it is rejected for its length, not its space. */
  lemma LongNameWithSpace()
    ensures ValidateToolName(seq(64, _ => 'a') + " ") == Fail(NameTooLong)
  {
    var s := seq(64, _ => 'a') + " ";
    assert !IsWhitespace(s[0]);
    assert forall i :: 0 <= i < |s| ==> s[i] as int <= 0xFFFF;
  }
}
