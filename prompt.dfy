/**
 * The CLI's yes/no confirmation prompt: the inputs it accepts, in any case,
 * how an input is read as a decision, and the lists shown in its error text.
 */
module PromptDisplayer {
  import opened Wrappers
  import opened Strings

  const YInput := "y"
  const YesInput := "yes"
  const NInput := "n"
  const NoInput := "no"

  const ValidConfirmInputs: seq<string> := [YInput, YesInput]
  const ValidRejectInputs: seq<string> := [NInput, NoInput]
  const AllValidDecisionInputs: seq<string> := ValidConfirmInputs + ValidRejectInputs

  /** The separator between the inputs listed in the error text. */
  const ListSeparator := "','"

  /** `inputs` holds `str` up to case. */
  predicate HoldsIgnoringCase(inputs: seq<string>, str: string)
  {
    exists i :: 0 <= i < |inputs| && ToLower(inputs[i]) == ToLower(str)
  }

  /** Searches `inputs` for `str`, comparing both in lower case. */
  method Contains(inputs: seq<string>, str: string) returns (found: bool)
    ensures found <==> HoldsIgnoringCase(inputs, str)
  {
    var i := 0;
    while i < |inputs|
      invariant 0 <= i <= |inputs|
      invariant forall j :: 0 <= j < i ==> ToLower(inputs[j]) != ToLower(str)
    {
      if ToLower(inputs[i]) == ToLower(str) {
        return true;
      }
      i := i + 1;
    }
    return false;
  }

  /** Lists the inputs in order, separated by `','`. */
  method ValidInputsListString(inputs: seq<string>) returns (s: string)
    ensures s == Join(inputs, ListSeparator)
  {
    var parts: seq<string> := [];
    var i := 0;
    while i < |inputs|
      invariant 0 <= i <= |inputs|
      invariant parts == inputs[..i]
    {
      parts := parts + [inputs[i]];
      i := i + 1;
    }
    assert parts == inputs;
    s := Join(parts, ListSeparator);
  }

  datatype PromptError =
    | InvalidInput(input: string, confirmInputs: string, rejectInputs: string)  // "You have entered an invalid input ..."
    | PromptFailed(cause: string)                                                // "An error occurred displaying the prompt"

  /** Accepts exactly the decision inputs, up to case. */
  method ValidateConfirmationInput(input: string) returns (err: Option<PromptError>)
    ensures err.None? <==> ToLower(input) in {"y", "yes", "n", "no"}
    ensures err.Some? ==> err == Some(InvalidInput(input, "y','yes", "n','no"))
  {
    var isValid := Contains(AllValidDecisionInputs, input);
    DecisionInputs(input);
    if !isValid {
      var confirmList := ValidInputsListString(ValidConfirmInputs);
      var rejectList := ValidInputsListString(ValidRejectInputs);
      ListStrings();
      return Some(InvalidInput(input, confirmList, rejectList));
    }
    return None;
  }

  /** An input confirms when it is "y" or "yes", up to case. */
  method IsConfirmationInput(input: string) returns (confirmed: bool)
    ensures confirmed <==> ToLower(input) in {"y", "yes"}
  {
    confirmed := Contains(ValidConfirmInputs, input);
    DecisionInputs(input);
  }

  /** The default shown in the prompt. */
  function DefaultValueString(defaultValue: bool): string
  {
    if defaultValue then YesInput else NoInput
  }

  /** What the prompt is shown with. */
  datatype Prompt = Prompt(promptLabel: string, defaultValue: string)

  /**
   * Shows the prompt and reads the answer as a decision. Running the prompt
   * is a parameter: the input the user gave (which the prompt has validated),
   * or the cause of its failure.
   */
  method DisplayConfirmationPromptAndGetBooleanResult(promptLabel: string, defaultValue: bool, run: Result<string, string>)
    returns (prompt: Prompt, r: Result<bool, PromptError>)
    ensures prompt == Prompt(promptLabel, DefaultValueString(defaultValue))
    ensures run.Err? ==> r == Err(PromptFailed(run.error))
    ensures run.Ok? ==> r.Ok? && (r.value <==> ToLower(run.value) in {"y", "yes"})
  {
    prompt := Prompt(promptLabel, DefaultValueString(defaultValue));
    if run.Err? {
      return prompt, Err(PromptFailed(run.error));
    }
    var confirmed := IsConfirmationInput(run.value);
    return prompt, Ok(confirmed);
  }

  // ---------------------------------------------------------------------------
  // Properties
  // ---------------------------------------------------------------------------

  lemma LowerOfLowercase(s: string)
    requires forall k :: 0 <= k < |s| ==> 'a' <= s[k] <= 'z'
    ensures ToLower(s) == s
  {
  }

  /** The decision lists, up to case, are the four lower-case words. */
  lemma DecisionInputs(input: string)
    ensures HoldsIgnoringCase(ValidConfirmInputs, input) <==> ToLower(input) in {"y", "yes"}
    ensures HoldsIgnoringCase(ValidRejectInputs, input) <==> ToLower(input) in {"n", "no"}
    ensures HoldsIgnoringCase(AllValidDecisionInputs, input) <==> ToLower(input) in {"y", "yes", "n", "no"}
  {
    LowerOfLowercase(YInput);
    LowerOfLowercase(YesInput);
    LowerOfLowercase(NInput);
    LowerOfLowercase(NoInput);
    var l := ToLower(input);
    assert HoldsIgnoringCase(ValidConfirmInputs, input) <==> l == YInput || l == YesInput by {
      assert ValidConfirmInputs[0] == YInput && ValidConfirmInputs[1] == YesInput;
    }
    assert HoldsIgnoringCase(ValidRejectInputs, input) <==> l == NInput || l == NoInput by {
      assert ValidRejectInputs[0] == NInput && ValidRejectInputs[1] == NoInput;
    }
    var all := AllValidDecisionInputs;
    assert HoldsIgnoringCase(all, input) <==> l == YInput || l == YesInput || l == NInput || l == NoInput by {
      assert all[0] == YInput && all[1] == YesInput && all[2] == NInput && all[3] == NoInput && |all| == 4;
    }
  }

  /** The error text lists the confirm inputs and the reject inputs, each in order. */
  lemma ListStrings()
    ensures Join(ValidConfirmInputs, ListSeparator) == "y','yes"
    ensures Join(ValidRejectInputs, ListSeparator) == "n','no"
  {
    assert ValidConfirmInputs[1..] == [YesInput];
    assert ValidRejectInputs[1..] == [NoInput];
  }

  /** Every confirming input is a valid input, and no input both confirms and rejects. */
  lemma ConfirmationsAreValid(input: string)
    ensures HoldsIgnoringCase(ValidConfirmInputs, input) ==> HoldsIgnoringCase(AllValidDecisionInputs, input)
    ensures !(HoldsIgnoringCase(ValidConfirmInputs, input) && HoldsIgnoringCase(ValidRejectInputs, input))
  {
    DecisionInputs(input);
  }

  /** The default is "yes" or "no" as asked, so it is a valid input that confirms exactly when the default is true. */
  lemma DefaultIsADecision(defaultValue: bool)
    ensures DefaultValueString(defaultValue) == if defaultValue then "yes" else "no"
    ensures HoldsIgnoringCase(AllValidDecisionInputs, DefaultValueString(defaultValue))
    ensures HoldsIgnoringCase(ValidConfirmInputs, DefaultValueString(defaultValue)) <==> defaultValue
  {
    DecisionInputs(DefaultValueString(defaultValue));
    LowerOfLowercase(DefaultValueString(defaultValue));
  }

  /**
   * Case does not matter: an input is classified as its lower-case form is, so
   * "YES" confirms and "No" rejects.
   */
  lemma {:induction false} CaseIsIgnored(inputs: seq<string>, str: string)
    ensures HoldsIgnoringCase(inputs, str) <==> HoldsIgnoringCase(inputs, ToLower(str))
    ensures HoldsIgnoringCase(ValidConfirmInputs, "YES") && HoldsIgnoringCase(ValidRejectInputs, "No")
  {
    assert ToLower(ToLower(str)) == ToLower(str);
    DecisionInputs("YES");
    DecisionInputs("No");
    assert ToLower("YES") == "yes" && ToLower("No") == "no";
  }
}
