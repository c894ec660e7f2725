/**
 * The first-run wizard: choose a language, accept the privacy policy, and
 * finish, which records in browser storage that onboarding is complete.
 *
 * Each step renders only its own controls, so events belonging to another
 * step are ignored.
 */
module Onboarding {
  import opened Wrappers
  import LanguageContext

  const CompletedKey: string := "onboarding_completed"

  /** `currentStep`, `acceptedPrivacy`, the language provider's state, and
      whether the wizard has finished and navigated home. */
  datatype Wizard = Wizard(step: nat, accepted: bool, prefs: LanguageContext.Prefs, done: bool)

  function Initial(prefs: LanguageContext.Prefs): (w: Wizard)
    ensures w.step == 1 && !w.accepted && !w.done
  {
    Wizard(1, false, prefs, false)
  }

  // ---------------------------------------------------------------------------
  // Handlers
  // ---------------------------------------------------------------------------

  /** `handleLanguageSelection`: set the language (which also persists it)
      and go to the privacy step. */
  function SelectLanguage(w: Wizard, l: LanguageContext.Lang): (r: Wizard)
    ensures r.step == 2 && r.accepted == w.accepted && r.done == w.done
    ensures r.prefs.language == l
    ensures LanguageContext.StorageKey in r.prefs.storage
    ensures r.prefs.storage[LanguageContext.StorageKey] == LanguageContext.Code(l)
  {
    w.(prefs := LanguageContext.SetLanguage(w.prefs, l), step := 2)
  }

  /** `handlePrivacyAccept`: move on only once the box is ticked. */
  function PrivacyAccept(w: Wizard): (r: Wizard)
    ensures w.accepted ==> r == w.(step := 3)
    ensures !w.accepted ==> r == w
  {
    if !w.accepted then w else w.(step := 3)
  }

  /** `handleComplete`: record completion and leave for the home page. */
  function Complete(w: Wizard): (r: Wizard)
    ensures r.done && r.step == w.step && r.accepted == w.accepted && r.prefs.language == w.prefs.language
    ensures CompletedKey in r.prefs.storage && r.prefs.storage[CompletedKey] == "true"
    ensures forall k :: k in w.prefs.storage && k != CompletedKey ==>
      k in r.prefs.storage && r.prefs.storage[k] == w.prefs.storage[k]
  {
    w.(prefs := w.prefs.(storage := w.prefs.storage[CompletedKey := "true"]), done := true)
  }

  /** The privacy step's continue button `disabled` expression. */
  predicate ContinueDisabled(w: Wizard) {
    !w.accepted
  }

  /** The button is disabled exactly when the handler would refuse. */
  lemma ContinueDisabledIffRefused(w: Wizard)
    requires w.step == 2
    ensures ContinueDisabled(w) <==> PrivacyAccept(w) == w
  {
  }

  // ---------------------------------------------------------------------------
  // Events
  // ---------------------------------------------------------------------------

  datatype Event = ChooseLanguage(lang: LanguageContext.Lang) | TickPrivacy(checked: bool) | ContinuePrivacy | Finish

  /** The event's control is not on the step the wizard shows. */
  predicate OffStep(w: Wizard, e: Event) {
    || (e.ChooseLanguage? && w.step != 1)
    || ((e.TickPrivacy? || e == ContinuePrivacy) && w.step != 2)
    || (e == Finish && w.step != 3)
  }

  /** One event, delivered only while its step is on screen. */
  function Step(w: Wizard, e: Event): (r: Wizard)
    ensures w.done ==> r == w
    ensures !w.done && w.step == 1 && e.ChooseLanguage? ==> r == SelectLanguage(w, e.lang)
    ensures !w.done && w.step == 2 && e == ContinuePrivacy ==> r == PrivacyAccept(w) && (r.step == 3 <==> w.accepted)
    ensures !w.done && w.step == 2 && e.TickPrivacy? ==> r == w.(accepted := e.checked)
    ensures !w.done && w.step == 3 && e == Finish ==> r == Complete(w) && r.done
    ensures !w.done && OffStep(w, e) ==> r == w
  {
    if w.done then w
    else match e
      case ChooseLanguage(l) => if w.step == 1 then SelectLanguage(w, l) else w
      case TickPrivacy(checked) => if w.step == 2 then w.(accepted := checked) else w
      case ContinuePrivacy => if w.step == 2 then PrivacyAccept(w) else w
      case Finish => if w.step == 3 then Complete(w) else w
  }

  /** What every reachable wizard satisfies: the step is 1, 2 or 3; past the
      first step the chosen language is stored; the last step is reached
      only with the policy accepted; finishing records completion. */
  predicate Reachable(w: Wizard) {
    && 1 <= w.step <= 3
    && (w.step >= 2 ==>
          LanguageContext.StorageKey in w.prefs.storage &&
          LanguageContext.ParseCode(w.prefs.storage[LanguageContext.StorageKey]) == Some(w.prefs.language))
    && (w.step == 3 ==> w.accepted)
    && (w.done ==> w.step == 3 && CompletedKey in w.prefs.storage && w.prefs.storage[CompletedKey] == "true")
  }

  /** Every event keeps the wizard reachable, and the step never goes back. */
  lemma StepKeepsReachable(w: Wizard, e: Event)
    requires Reachable(w)
    ensures Reachable(Step(w, e))
    ensures Step(w, e).step >= w.step
  {
    var r := Step(w, e);
    if !w.done && e.ChooseLanguage? && w.step == 1 {
      LanguageContext.CodeRoundTrip(e.lang, "");
    }
    if !w.done && e == Finish && w.step == 3 {
      assert LanguageContext.StorageKey != CompletedKey;
    }
  }

  function Run(w: Wizard, es: seq<Event>): Wizard
    decreases |es|
  {
    if |es| == 0 then w else Run(Step(w, es[0]), es[1..])
  }

  lemma {:induction false} RunKeepsReachable(w: Wizard, es: seq<Event>)
    requires Reachable(w)
    ensures Reachable(Run(w, es))
    ensures Run(w, es).step >= w.step
    decreases |es|
  {
    if |es| > 0 {
      StepKeepsReachable(w, es[0]);
      RunKeepsReachable(Step(w, es[0]), es[1..]);
    }
  }

  /** Whatever the user does, a finished wizard has accepted the policy,
      stored a valid language code and recorded completion. */
  lemma FinishedMeansAcceptedAndStored(prefs: LanguageContext.Prefs, es: seq<Event>)
    ensures var w := Run(Initial(prefs), es);
      w.done ==>
        && w.accepted
        && LanguageContext.StorageKey in w.prefs.storage
        && LanguageContext.ParseCode(w.prefs.storage[LanguageContext.StorageKey]) == Some(w.prefs.language)
        && CompletedKey in w.prefs.storage
        && w.prefs.storage[CompletedKey] == "true"
  {
    RunKeepsReachable(Initial(prefs), es);
  }

  // ---------------------------------------------------------------------------
  // Progress bar
  // ---------------------------------------------------------------------------

  /** The three progress segments: segment `k` (1-based) is lit when `k <= currentStep`. */
  function Progress(step: nat): (r: seq<bool>)
    ensures |r| == 3
  {
    [1 <= step, 2 <= step, 3 <= step]
  }

  /** The lit segments are exactly the first `step` ones, and an event never
      turns a segment off. */
  lemma ProgressShowsStep(w: Wizard, e: Event)
    requires Reachable(w)
    ensures forall i :: 0 <= i < 3 ==> (Progress(w.step)[i] <==> i < w.step)
    ensures forall i :: 0 <= i < 3 && Progress(w.step)[i] ==> Progress(Step(w, e).step)[i]
  {
    StepKeepsReachable(w, e);
  }
}
