/** Letter generation as `app/api/generate-letter` implements it: the
    subscriber and allowance checks, the letter row moving from
    `generating` to `pending_review` or `failed`, the credit deduction after
    a successful draft and the audit rows. The text model is a parameter:
    `ai` maps the prompt to what the call returns. */
module Generation {
  import opened Common
  import opened Query
  import opened Records
  import opened Prompt
  import opened Allowance

  /** What the text-model call produces: a text (possibly empty) or an
      error carrying a message. */
  datatype AiOutcome = Generated(text: string) | Threw(message: string)

  datatype GenerateReply =
    | Unauthorized
    | NotSubscriber
    | NoCredits
    | MissingFields
    | NotConfigured
    | GenerationFailed(letterId: nat, error: string)
    | AllowanceRefused(letterId: nat)
    | Created(letterId: nat, isFreeTrial: bool, aiDraft: string)
  {
    function Status(): int {
      match this
      case Unauthorized => 401
      case NotSubscriber => 403
      case NoCredits => 403
      case MissingFields => 400
      case NotConfigured => 500
      case GenerationFailed(_, _) => 500
      case AllowanceRefused(_) => 403
      case Created(_, _, _) => 200
    }

    /** The replies that carry `needsSubscription: true`. */
    predicate NeedsSubscription() {
      NoCredits? || AllowanceRefused?
    }

    /** The replies given after the letter row was inserted. */
    predicate InsertedLetter() {
      GenerationFailed? || AllowanceRefused? || Created?
    }
  }

  const EmptyContentError: string := "AI returned empty content"
  const DefaultGenerationError: string := "AI generation failed"
  const CreatedNote: string := "Letter generated successfully by AI"

  /** A user's first letter is free: no letter of theirs exists yet. */
  predicate IsFreeTrial(st: Store, u: UserId) {
    Count(st.letters, OwnedBy(u)) == 0
  }

  /** The free trial is exactly the absence of any letter owned by the
      user. */
  lemma FreeTrialIffNoLetters(st: Store, u: UserId)
    ensures IsFreeTrial(st, u) <==> forall i :: 0 <= i < |st.letters| ==> st.letters[i].userId != u
  {
    CountZero(st.letters, OwnedBy(u));
  }

  predicate IsSubscriber(st: Store, u: UserId) {
    u in st.profiles && st.profiles[u].role == "subscriber"
  }

  /** The error message a model outcome throws with, None when it yields a
      usable draft. An empty draft throws. */
  function FailureOf(outcome: AiOutcome): (r: Option<string>)
    ensures r.None? <==> outcome.Generated? && outcome.text != ""
  {
    match outcome
    case Threw(message) => Some(message)
    case Generated(text) => if text == "" then Some(EmptyContentError) else None
  }

  function CreatedEntry(id: nat): AuditEntry {
    AuditEntry(id, "created", Generating, PendingReview, CreatedNote)
  }

  function FailedEntry(id: nat, message: string): AuditEntry {
    AuditEntry(id, "generation_failed", Generating, Failed, "Generation failed: " + message)
  }

  /** The steps after the guards: insert the letter as `generating`, ask
      the model, and settle the row as `pending_review` (deducting a credit
      unless the letter is free) or `failed`. */
  function Attempt(
    st: Store, u: UserId, letterType: string, intake: map<string, string>,
    free: bool, outcome: AiOutcome, rpcFault: bool): (out: (GenerateReply, Store))
    ensures out.0.InsertedLetter()
    ensures out.1.profiles == st.profiles && out.1.coupons == st.coupons
    ensures out.1.couponUsage == st.couponUsage && out.1.commissions == st.commissions
    ensures out.0.letterId == |st.letters| && |out.1.letters| == |st.letters| + 1
    ensures var l := out.1.letters[|st.letters|];
            && out.1.letters == st.letters + [l]
            && l.userId == u && l.letterType == letterType && l.intakeData == intake
            && (l.status == PendingReview <==> out.0.Created?)
            && (l.status == Failed <==> !out.0.Created?)
    ensures out.0.Created? ==>
              && outcome == Generated(out.0.aiDraft) && out.0.aiDraft != ""
              && out.1.letters[out.0.letterId].aiDraftContent == Some(out.0.aiDraft)
              && out.1.audit == st.audit + [CreatedEntry(out.0.letterId)]
              && out.0.isFreeTrial == free
              && (free ==> out.1.subscriptions == st.subscriptions)
              && (!free ==> Credits(out.1.subscriptions, u) == Credits(st.subscriptions, u) - 1)
              && (!free ==> forall v :: v != u ==> Credits(out.1.subscriptions, v) == Credits(st.subscriptions, v))
    ensures out.0.GenerationFailed? <==> FailureOf(outcome).Some?
    ensures out.0.GenerationFailed? ==>
              var message := FailureOf(outcome).value;
              && out.0.error == (if message == "" then DefaultGenerationError else message)
              && out.1.audit == st.audit + [FailedEntry(out.0.letterId, message)]
              && out.1.letters[out.0.letterId].aiDraftContent == None
              && out.1.subscriptions == st.subscriptions
    ensures out.0.AllowanceRefused? ==>
              && !free && (rpcFault || !HasCredit(st.subscriptions, u))
              && out.1.audit == st.audit && out.1.subscriptions == st.subscriptions
    ensures CreditsNonNegative(st.subscriptions) ==> CreditsNonNegative(out.1.subscriptions)
  {
    var id := |st.letters|;
    var letter := Letter(u, letterType, intake, Generating, None);
    match FailureOf(outcome)
    case Some(message) =>
      (GenerationFailed(id, if message == "" then DefaultGenerationError else message),
       st.(letters := st.letters + [letter.(status := Failed)],
           audit := st.audit + [FailedEntry(id, message)]))
    case None =>
      var drafted := letter.(status := PendingReview, aiDraftContent := Some(outcome.text));
      if free then
        (Created(id, true, outcome.text),
         st.(letters := st.letters + [drafted], audit := st.audit + [CreatedEntry(id)]))
      else
        match Deduct(st.subscriptions, u, rpcFault)
        case None =>
          (AllowanceRefused(id), st.(letters := st.letters + [drafted.(status := Failed)]))
        case Some(subs) =>
          (Created(id, false, outcome.text),
           st.(letters := st.letters + [drafted], subscriptions := subs,
               audit := st.audit + [CreatedEntry(id)]))
  }

  /** POST: generate a letter for `user` from a letter type and intake
      data. `apiKeyConfigured` is the presence of the model's API key and
      `rpcFault` a failure of the deduction call itself. */
  function Post(
    st: Store,
    user: Option<UserId>,
    letterType: Option<string>,
    intake: Option<map<string, string>>,
    apiKeyConfigured: bool,
    ai: string -> AiOutcome,
    rpcFault: bool): (out: (GenerateReply, Store))
    ensures user.None? ==> out == (Unauthorized, st)
    ensures user.Some? && !IsSubscriber(st, user.value) ==> out == (NotSubscriber, st)
    ensures out.0 == NoCredits <==>
              user.Some? && IsSubscriber(st, user.value) && !IsFreeTrial(st, user.value)
              && !HasCredit(st.subscriptions, user.value)
    ensures out.0 == MissingFields ==>
              IsFreeTrial(st, user.value) || HasCredit(st.subscriptions, user.value)
    ensures user.Some? && IsSubscriber(st, user.value)
            && (IsFreeTrial(st, user.value) || HasCredit(st.subscriptions, user.value))
            && (!Truthy(letterType) || intake.None?) ==>
              out == (MissingFields, st)
    ensures user.Some? && IsSubscriber(st, user.value)
            && (IsFreeTrial(st, user.value) || HasCredit(st.subscriptions, user.value))
            && Truthy(letterType) && intake.Some? && !apiKeyConfigured ==>
              out == (NotConfigured, st)
    ensures out.0.InsertedLetter() <==>
              user.Some? && IsSubscriber(st, user.value)
              && (IsFreeTrial(st, user.value) || HasCredit(st.subscriptions, user.value))
              && Truthy(letterType) && intake.Some? && apiKeyConfigured
    ensures !out.0.InsertedLetter() ==> out.1 == st
    ensures out.0.InsertedLetter() ==>
              out == Attempt(st, user.value, letterType.value, intake.value, IsFreeTrial(st, user.value),
                             ai(BuildPrompt(letterType.value, intake.value)), rpcFault)
    ensures out.0.AllowanceRefused? ==> rpcFault
  {
    if user.None? then (Unauthorized, st)
    else
      var u := user.value;
      if !IsSubscriber(st, u) then (NotSubscriber, st)
      else
        var free := IsFreeTrial(st, u);
        if !free && !HasCredit(st.subscriptions, u) then (NoCredits, st)
        else if !Truthy(letterType) || intake.None? then (MissingFields, st)
        else if !apiKeyConfigured then (NotConfigured, st)
        else Attempt(st, u, letterType.value, intake.value, free, ai(BuildPrompt(letterType.value, intake.value)), rpcFault)
  }

  /** Any attempt that inserts a letter, failed or not, uses up the free
      trial: the user's next request is not free. */
  lemma GenerationEndsFreeTrial(
    st: Store, user: Option<UserId>, letterType: Option<string>, intake: Option<map<string, string>>,
    apiKeyConfigured: bool, ai: string -> AiOutcome, rpcFault: bool)
    ensures var out := Post(st, user, letterType, intake, apiKeyConfigured, ai, rpcFault);
            out.0.InsertedLetter() ==>
              Count(out.1.letters, OwnedBy(user.value)) == Count(st.letters, OwnedBy(user.value)) + 1
              && !IsFreeTrial(out.1, user.value)
  {
    var out := Post(st, user, letterType, intake, apiKeyConfigured, ai, rpcFault);
    if out.0.InsertedLetter() {
      CountAppend(st.letters, out.1.letters[|st.letters|], OwnedBy(user.value));
    }
  }

  /** Two active subscriptions make `.single()` fail, so a user past the
      free trial cannot generate however many credits they hold. */
  lemma TwoActiveSubscriptionsBlock(
    st: Store, u: UserId, letterType: Option<string>, intake: Option<map<string, string>>,
    apiKeyConfigured: bool, ai: string -> AiOutcome, rpcFault: bool)
    requires IsSubscriber(st, u) && !IsFreeTrial(st, u)
    requires Count(st.subscriptions, ActiveFor(u)) >= 2
    ensures Post(st, Some(u), letterType, intake, apiKeyConfigured, ai, rpcFault) == (NoCredits, st)
  {
    assert !HasCredit(st.subscriptions, u);
  }

  /** Generation never drives a credit count below zero. */
  lemma GenerationKeepsCreditsNonNegative(
    st: Store, user: Option<UserId>, letterType: Option<string>, intake: Option<map<string, string>>,
    apiKeyConfigured: bool, ai: string -> AiOutcome, rpcFault: bool)
    requires CreditsNonNegative(st.subscriptions)
    ensures CreditsNonNegative(Post(st, user, letterType, intake, apiKeyConfigured, ai, rpcFault).1.subscriptions)
  {
  }

  /** After a generation that succeeds (the user may generate, the fields
      are present and the model answers with text), a second identical
      request is never free: it spends one more credit when it succeeds and
      is otherwise refused or fails at the model. */
  lemma RepeatedGenerationSpendsCredits(
    st: Store, u: UserId, letterType: Option<string>, intake: Option<map<string, string>>,
    ai: string -> AiOutcome)
    requires IsSubscriber(st, u) && Truthy(letterType) && intake.Some?
    requires IsFreeTrial(st, u) || HasCredit(st.subscriptions, u)
    requires FailureOf(ai(BuildPrompt(letterType.value, intake.value))).None?
    ensures var (first, st1) := Post(st, Some(u), letterType, intake, true, ai, false);
            var (second, st2) := Post(st1, Some(u), letterType, intake, true, ai, false);
            && first.Created?
            && (second.Created? ==>
                  !second.isFreeTrial && Credits(st2.subscriptions, u) == Credits(st1.subscriptions, u) - 1)
            && (second.Created? || second == NoCredits || second.GenerationFailed?)
  {
    var (first, st1) := Post(st, Some(u), letterType, intake, true, ai, false);
    GenerationEndsFreeTrial(st, Some(u), letterType, intake, true, ai, false);
  }
}
