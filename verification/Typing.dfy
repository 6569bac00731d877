/** The keys of the bet form (internal/tui/bet.go:40-90): what is typed is what the form holds, and what the form holds
    is what is bet. */
module Typing {
  import opened Wrappers
  import opened GoInt
  import opened Client
  import Fair

  function Keys(text: string): seq<Input> {
    seq(|text|, i requires 0 <= i < |text| => Press(Typed(text[i])))
  }

  lemma {:induction false} RunConcat(decimals: Decimals, s: Screen, es: seq<Input>, more: seq<Input>)
    ensures Run(decimals, s, es + more) == Run(decimals, Run(decimals, s, es), more)
    decreases |es|
  {
    if es == [] {
      assert es + more == more;
    } else {
      assert (es + more)[1..] == es[1..] + more;
      RunConcat(decimals, Next(decimals, s, es[0]), es[1..], more);
    }
  }

  lemma FirstKey(decimals: Decimals, s: Screen, text: string)
    requires text != []
    ensures Run(decimals, s, Keys(text))
            == Run(decimals, s.(form := Edit(s.form, Typed(text[0]))), Keys(text[1..]))
  {
    assert Keys(text)[1..] == Keys(text[1..]);
  }

  /** Digits typed into the amount are appended to it. */
  lemma {:induction false} TypesAmount(decimals: Decimals, s: Screen, text: string)
    requires s.form.field.Amount? && Fair.AllDigits(text) && text != []
    ensures Run(decimals, s, Keys(text)) == s.(form := s.form.(amountStr := s.form.amountStr + text, err := ""))
    decreases |text|
  {
    var s1 := s.(form := Edit(s.form, Typed(text[0])));
    FirstKey(decimals, s, text);
    assert s1.form.amountStr + text[1..] == s.form.amountStr + text;
    if |text| > 1 { TypesAmount(decimals, s1, text[1..]); }
  }

  /** So are digits and a first point to the target. */
  lemma {:induction false} TypesTarget(decimals: Decimals, s: Screen, text: string)
    requires s.form.field.AutoCashout? && Decimalish(s.form.acStr + text) && text != []
    ensures Run(decimals, s, Keys(text)) == s.(form := s.form.(acStr := s.form.acStr + text, err := ""))
    decreases |text|
  {
    var s1 := s.(form := Edit(s.form, Typed(text[0])));
    var all, k := s.form.acStr + text, |s.form.acStr|;
    FirstKey(decimals, s, text);
    assert all[k] == text[0];
    assert forall i :: 0 <= i < k ==> all[i] == s.form.acStr[i];
    assert s1.form.acStr + text[1..] == all;
    if |text| > 1 { TypesTarget(decimals, s1, text[1..]); }
  }

  /** A number typed into an empty amount is the amount. */
  lemma TypedNumber(decimals: Decimals, s: Screen, n: nat)
    requires s.form.field.Amount? && s.form.amountStr == "" && n < INT64_LIMIT
    ensures ParseAmount(Run(decimals, s, Keys(Fair.Decimal(n))).form.amountStr) == Some(n)
  {
    Fair.DecimalIsCanonical(n);
    TypesAmount(decimals, s, Fair.Decimal(n));
    assert "" + Fair.Decimal(n) == Fair.Decimal(n);
  }

  /** Backspace takes back what was typed last, and tab, pressed twice, gets back to where it was. */
  lemma KeysUndo(f: Form, c: char)
    ensures Edit(f, Typed(c)).amountStr != f.amountStr || Edit(f, Typed(c)).acStr != f.acStr ==>
              Edit(Edit(f, Typed(c)), Backspace) == f.(err := "")
    ensures Edit(f, Tab).field != f.field && Edit(Edit(f, Tab), Tab) == f
    ensures f.amountStr == "" && f.acStr == "" ==> Edit(f, Backspace) == f.(err := "")
  {
    assert Chop(f.amountStr + [c]) == f.amountStr && Chop(f.acStr + [c]) == f.acStr;
  }

  /** The whole form: in an open betting window an amount is typed, then, if any, a target, and Enter is pressed. */
  function FillAndEnter(n: nat, target: string): seq<Input> {
    Keys(Fair.Decimal(n)) + (if target == "" then [] else [Press(Tab)] + Keys(target)) + [Press(Enter)]
  }

  /** The form as it then stands. */
  function Filled(f: Form, n: nat, target: string): Form {
    f.(amountStr := Fair.Decimal(n), acStr := target, err := "", field := if target == "" then Amount else AutoCashout)
  }

  lemma FilledAmount(decimals: Decimals, s: Screen, n: nat)
    requires s.form.field.Amount? && s.form.amountStr == "" && s.form.acStr == ""
    ensures Run(decimals, s, Keys(Fair.Decimal(n))) == s.(form := Filled(s.form, n, ""))
  {
    Fair.DecimalIsCanonical(n);
    TypesAmount(decimals, s, Fair.Decimal(n));
    assert "" + Fair.Decimal(n) == Fair.Decimal(n);
  }

  lemma FilledTarget(decimals: Decimals, s: Screen, target: string)
    requires s.form.field.Amount? && s.form.acStr == "" && s.form.err == "" && Decimalish(target) && target != ""
    ensures Run(decimals, s, [Press(Tab)] + Keys(target))
            == s.(form := s.form.(acStr := target, field := AutoCashout))
  {
    var s1 := s.(form := s.form.(field := AutoCashout));
    assert ([Press(Tab)] + Keys(target))[1..] == Keys(target) && "" + target == target;
    TypesTarget(decimals, s1, target);
  }

  lemma FilledForm(decimals: Decimals, s: Screen, n: nat, target: string)
    requires s.form.field.Amount? && s.form.amountStr == "" && s.form.acStr == "" && Decimalish(target)
    ensures Run(decimals, s, FillAndEnter(n, target))
            == Next(decimals, s.(form := Filled(s.form, n, target)), Press(Enter))
  {
    var typed := Keys(Fair.Decimal(n));
    var head := if target == "" then typed else typed + ([Press(Tab)] + Keys(target));
    FilledAmount(decimals, s, n);
    if target != "" {
      RunConcat(decimals, s, typed, [Press(Tab)] + Keys(target));
      FilledTarget(decimals, Run(decimals, s, typed), target);
    }
    assert FillAndEnter(n, target) == head + [Press(Enter)];
    RunSnoc(decimals, s, head, Press(Enter));
  }

  /** What is typed is what is bet. In an open window with nothing placed, typing the amount `n` and a target and
      pressing Enter sends a bet if and only if `n` is positive and within the maximum and the target, if there is
      one, is a number of at least 1.01; the bet is `n`, and the target in hundredths, cut off, or 0 for none. */
  lemma BetsWhatIsTyped(decimals: Decimals, s: Screen, n: nat, target: string)
    requires s.state.Betting? && !s.form.placed && s.form.maxBet < INT64_LIMIT
    requires s.form.field.Amount? && s.form.amountStr == "" && s.form.acStr == "" && Decimalish(target)
    ensures var out := Run(decimals, s, FillAndEnter(n, target)).outbox;
            var good := 0 < n <= s.form.maxBet
                        && (target == "" || (decimals(target).Some? && decimals(target).value >= 1.01));
            if good then
              && |out| == |s.outbox| + 1 && out[..|s.outbox|] == s.outbox
              && out[|s.outbox|].Bet? && out[|s.outbox|].round == s.round && out[|s.outbox|].amount == n
              && var auto := out[|s.outbox|].auto;
                 if target == "" then auto == 0
                 else auto as real <= 100.0 * decimals(target).value < auto as real + 1.0
            else out == s.outbox
  {
    FilledForm(decimals, s, n, target);
    Fair.DecimalIsCanonical(n);
    SentExactly(decimals, s.(form := Filled(s.form, n, target)), Press(Enter));
  }
}
