/** The HTTP route layer: configuration, the records it writes, the request
    and response shapes, and the handlers that tie the gate, the classifier,
    the statistics, the progress buffer and the email step together. The
    external store and the email provider are collaborators: what the server
    hands them is logged in `storeWrites` and `outbox`, and what they answer
    is a parameter of each handler. */
module Server {
  import opened Values
  import opened Text
  import opened Catalog
  import opened Stats
  import opened Gate
  import opened Mail
  import opened Onboarding
  import opened Dashboard

  /** The recognised environment variables (absent when `None`). */
  datatype Env = Env(
    supabaseUrl: Option<string>,
    supabaseApiKey: Option<string>,
    sendGridApiKey: Option<string>,
    sendGridSender: Option<string>,
    bizflowApiKey: Option<string>,
    allowInsecure: Option<string>)

  datatype Config = Config(
    supabaseConfigured: bool,
    sendGridConfigured: bool,
    sender: string,
    apiKey: Option<string>,
    allowInsecure: bool)

  /** The flags derived once at startup: each collaborator is configured only
      when all of its settings are non-empty, and the gate is enforced exactly
      when a key is set and the override is not the string "true". */
  function ConfigFromEnv(env: Env): (c: Config)
    ensures c.supabaseConfigured <==> Truthy(env.supabaseUrl) && Truthy(env.supabaseApiKey)
    ensures c.sendGridConfigured <==> Truthy(env.sendGridApiKey) && Truthy(env.sendGridSender)
    ensures c.sendGridConfigured ==> c.sender == env.sendGridSender.value
    ensures c.apiKey == env.bizflowApiKey
    ensures c.allowInsecure <==> env.allowInsecure == Some("true")
    ensures Enforced(c.apiKey, c.allowInsecure) <==> Truthy(env.bizflowApiKey) && env.allowInsecure != Some("true")
  {
    Config(
      Truthy(env.supabaseUrl) && Truthy(env.supabaseApiKey),
      Truthy(env.sendGridApiKey) && Truthy(env.sendGridSender),
      OrElse(env.sendGridSender, ""),
      env.bizflowApiKey,
      env.allowInsecure == Some("true"))
  }

  /** A row of `agent_interactions`. */
  datatype InteractionRecord = InteractionRecord(
    userId: string, userMessage: string, agentResponse: Option<string>, businessType: string, createdAt: string)

  /** A row of `onboarding_progress`; `metadata` is restricted to string
      values. `completed` and `metadata` keep a `null` the request sent. */
  datatype ProgressRecord = ProgressRecord(
    userId: string, stepId: string, completed: Field<bool>, metadata: Field<map<string, string>>,
    businessType: string, createdAt: string)

  /** A row of `playbook_runs`. */
  datatype PlaybookRun = PlaybookRun(playbookId: string, businessType: string, createdAt: string)

  /** An insert handed to the external store. */
  datatype StoreWrite =
    | InteractionRow(interaction: InteractionRecord)
    | ProgressRow(progress: ProgressRecord)
    | PlaybookRow(run: PlaybookRun)

  /** What an insert comes back with: success, an `error` in the result, or a
      rejected promise. */
  datatype StoreOutcome = Inserted | Rejected(message: string) | Threw(message: string)

  datatype InteractionRequest = InteractionRequest(
    userId: Option<string>, message: Option<string>, response: Option<string>, businessType: Option<string>)

  datatype ProgressRequest = ProgressRequest(
    userId: Option<string>, stepId: Option<string>, completed: Field<bool>,
    metadata: Field<map<string, string>>, businessType: Option<string>)

  datatype CourseRequest = CourseRequest(email: Option<string>, courseTitle: Option<string>, note: Option<string>)

  datatype PlaybookRequest = PlaybookRequest(playbookId: Option<string>, businessType: Option<string>)

  datatype Response =
    | Unauthorized
    | BadRequest(error: string)
    | ServerError(error: string)
    | InteractionSaved(businessType: string)
    | ProgressStored
    | ProgressCached(record: ProgressRecord)
    | CourseDeliveryLogged(message: string, emailSent: bool)
    | PlaybookRunSaved
    | StepsListing(status: string, steps: seq<Step>, summary: string)
    | Summary(status: string, note: string, breakdown: Option<seq<BreakdownEntry>>)
    | SummaryFailed(error: string, note: string)
    | VerticalsListing(types: seq<VerticalEntry>)

  function StatusCode(r: Response): nat {
    match r
    case Unauthorized => 401
    case BadRequest(_) => 400
    case ServerError(_) => 500
    case SummaryFailed(_, _) => 500
    case ProgressCached(_) => 202
    case _ => 200
  }

  /** `response || null`: a falsy response is stored as null. */
  function AgentResponse(response: Option<string>): (r: Option<string>)
    ensures r.Some? <==> Truthy(response)
    ensures r.Some? ==> r == response
  {
    if Truthy(response) then response else None
  }

  /** The message logged for a course delivery: it ends with the title and,
      whatever the title, carries the delivery marker. */
  function CourseDeliveryMessage(courseTitle: string): (r: string)
    ensures |r| >= |courseTitle| && r[|r| - |courseTitle|..] == courseTitle
    ensures IsDeliveryMessage(Some(r))
  {
    assert ToLower("Course delivery") == DeliveryMarker;
    MarkerInAnyCase("", "Course delivery", ": " + courseTitle);
    assert "" + "Course delivery" + (": " + courseTitle) == "Course delivery: " + courseTitle;
    "Course delivery: " + courseTitle
  }

  /** The agent response logged for a course delivery: the note when it is
      truthy, otherwise a fixed text. */
  function CourseDeliveryResponse(note: Option<string>): (r: string)
    ensures Truthy(note) ==> r == note.value
    ensures !Truthy(note) ==> r == "Access link delivered via SendGrid"
  {
    OrElse(note, "Access link delivered via SendGrid")
  }

  /** A course delivery is recorded under `courses` and always counts as a
      delivery, whatever the title: both of that vertical's counters go up by
      one and no other vertical changes. */
  lemma CourseDeliveryCountsUnderCourses(m: StatsMap, courseTitle: string)
    ensures
      var r := Record(m, NormalizeBusinessType(Some(Courses)), IsDeliveryMessage(Some(CourseDeliveryMessage(courseTitle))));
      && Lookup(r, Courses) == Counters(Lookup(m, Courses).interactions + 1, Lookup(m, Courses).deliveries + 1)
      && forall id :: id != Courses ==> Lookup(r, id) == Lookup(m, id)
  {
    CoursesIsFixed();
  }

  /** A delivery message logged with the label "Gold Wealth Academy" counts
      under `cleaning`, not `courses`: the label does not contain the id. */
  lemma AcademyLabelDeliveryCountsUnderCleaning(m: StatsMap, prefix: string, word: string, suffix: string)
    requires ToLower(word) == DeliveryMarker
    ensures
      var r := Record(m, NormalizeBusinessType(Some("Gold Wealth Academy")), IsDeliveryMessage(Some(prefix + word + suffix)));
      && Lookup(r, Cleaning) == Counters(Lookup(m, Cleaning).interactions + 1, Lookup(m, Cleaning).deliveries + 1)
      && Lookup(r, Courses) == Lookup(m, Courses)
  {
    AcademyLabelIsCleaning();
    MarkerInAnyCase(prefix, word, suffix);
  }

  /** `playbook-run` stores its business type as given, not classified:
      the stored value differs from the classification exactly when the
      value is truthy and not a catalog id, as the label "Gold Wealth Academy"
      is. */
  lemma PlaybookTypeIsNotClassified(bt: Option<string>)
    ensures OrElse(bt, Cleaning) != NormalizeBusinessType(bt) <==> Truthy(bt) && !IsCatalogId(bt.value)
    ensures !IsCatalogId(OrElse(Some(BusinessTypes[2].name), Cleaning))
  {
    if Truthy(bt) && IsCatalogId(bt.value) {
      NormalizeFixesIds(bt.value);
    }
  }

  /** The seed is not awaited, so a request can be counted before the fetch
      reads the store. When the fetched rows include that request's own row,
      the row is counted twice: once by the request, once by the seed. */
  lemma LateSeedCountsTwice(m: StatsMap, id: string, delivery: bool)
    requires IsCatalogId(id)
    ensures Lookup(Replay(Record(m, id, delivery), SeedEvents([Some(id)])), id).interactions ==
      Lookup(m, id).interactions + 2
  {
    NormalizeFixesIds(id);
    ReplayCounts(Record(m, id, delivery), SeedEvents([Some(id)]), id);
    assert SeedEvents([Some(id)])[..0] == [];
  }

  class Server {
    const config: Config
    /** `verticalStats` */
    const vstats: VerticalStats
    /** `progressBuffer` */
    var progressBuffer: seq<ProgressRecord>
    /** Every insert handed to the external store, in order; a record kept
        by the model only, not state of the server. */
    ghost var storeWrites: seq<StoreWrite>
    /** Every email handed to the provider, in order; a record kept by the
        model only. */
    ghost var outbox: seq<Message>

    ghost predicate Valid()
      reads this, vstats
    {
      vstats.Valid()
    }

    /** Process start: the configuration read from the environment, zero
        counters, an empty buffer and no collaborator call yet. The startup
        seed is a separate step (`InitVerticalStats`). */
    constructor (env: Env)
      ensures Valid() && fresh(vstats)
      ensures config == ConfigFromEnv(env)
      ensures vstats.stats == InitialStats()
      ensures progressBuffer == [] && storeWrites == [] && outbox == []
    {
      config := ConfigFromEnv(env);
      vstats := new VerticalStats();
      progressBuffer, storeWrites, outbox := [], [], [];
    }

    /** `initVerticalStats()`, which is started without being awaited: its
        rows are added to whatever the counters hold when the fetch answers,
        which may be after requests have already been counted. `fetched` is
        `None` when the store returned no data or the fetch failed. */
    method InitVerticalStats(fetched: Option<seq<Option<string>>>)
      requires Valid()
      modifies vstats
      ensures Valid()
      ensures vstats.stats ==
        if config.supabaseConfigured && fetched.Some? then Replay(old(vstats.stats), SeedEvents(fetched.value))
        else old(vstats.stats)
    {
      vstats.Seed(config.supabaseConfigured, fetched);
    }

    /** The `requireApiKey` decision for this process's configuration. */
    predicate Admits(header: Option<string>) {
      Allowed(config.apiKey, config.allowInsecure, header)
    }

    /** `logInteraction`: classify, hand the row to the store, and update the
        counters whatever the store answered, unless the insert threw, which
        happens before the counters are touched. */
    method LogInteraction(userId: string, message: string, response: Option<string>, businessType: Option<string>,
                          createdAt: string, insert: StoreOutcome)
      returns (normalized: string)
      requires Valid()
      modifies this, vstats
      ensures Valid()
      ensures normalized == NormalizeBusinessType(businessType)
      ensures storeWrites == old(storeWrites) +
        [InteractionRow(InteractionRecord(userId, message, AgentResponse(response), normalized, createdAt))]
      ensures vstats.stats ==
        if insert.Threw? then old(vstats.stats)
        else Record(old(vstats.stats), normalized, IsDeliveryMessage(Some(message)))
      ensures progressBuffer == old(progressBuffer) && outbox == old(outbox)
    {
      normalized := NormalizeBusinessType(businessType);
      var payload := InteractionRecord(userId, message, AgentResponse(response), normalized, createdAt);
      storeWrites := storeWrites + [InteractionRow(payload)];
      if insert.Threw? {
        return;
      }
      vstats.RecordInteraction(normalized, Some(message));
    }

    /** `POST /api/interactions` */
    method PostInteraction(header: Option<string>, req: InteractionRequest, createdAt: string, insert: StoreOutcome)
      returns (resp: Response)
      requires Valid()
      modifies this, vstats
      ensures Valid()
      ensures !Admits(header) ==> resp == Unauthorized && unchanged(this, vstats)
      ensures Admits(header) && !(Truthy(req.userId) && Truthy(req.message)) ==>
        resp == BadRequest("user_id and message required") && unchanged(this, vstats)
      ensures Admits(header) && Truthy(req.userId) && Truthy(req.message) ==>
        var normalized := NormalizeBusinessType(req.businessType);
        && storeWrites == old(storeWrites) +
             [InteractionRow(InteractionRecord(req.userId.value, req.message.value, AgentResponse(req.response), normalized, createdAt))]
        && vstats.stats == (if insert.Threw? then old(vstats.stats)
                            else Record(old(vstats.stats), normalized, IsDeliveryMessage(req.message)))
        && progressBuffer == old(progressBuffer) && outbox == old(outbox)
        && resp == (if insert.Inserted? then InteractionSaved(normalized) else ServerError(insert.message))
    {
      if !Admits(header) {
        return Unauthorized;
      }
      if !Truthy(req.userId) || !Truthy(req.message) {
        return BadRequest("user_id and message required");
      }
      var normalized := LogInteraction(req.userId.value, req.message.value, req.response, req.businessType, createdAt, insert);
      if insert.Inserted? {
        resp := InteractionSaved(normalized);
      } else {
        resp := ServerError(insert.message);
      }
    }

    /** `GET /api/onboarding/steps` */
    method GetOnboardingSteps(header: Option<string>) returns (resp: Response)
      ensures !Admits(header) ==> resp == Unauthorized
      ensures Admits(header) ==>
        && resp.StepsListing?
        && resp.steps == OnboardingSteps
        && resp.status == StepsStatus(config.supabaseConfigured)
        && (resp.status == "connected" <==> config.supabaseConfigured)
        && resp.summary == StepsSummary(config.supabaseConfigured)
    {
      if !Admits(header) {
        return Unauthorized;
      }
      resp := StepsListing(StepsStatus(config.supabaseConfigured), OnboardingSteps, StepsSummary(config.supabaseConfigured));
    }

    /** `POST /api/onboarding/progress`: the record is classified and appended
        to the progress buffer before the store configuration is consulted;
        without a store the answer is 202 with the record, otherwise the
        store's answer decides. */
    method PostProgress(header: Option<string>, req: ProgressRequest, createdAt: string, insert: StoreOutcome)
      returns (resp: Response)
      requires Valid()
      modifies this
      ensures Valid()
      ensures !Admits(header) ==> resp == Unauthorized && unchanged(this)
      ensures Admits(header) && !(Truthy(req.userId) && Truthy(req.stepId)) ==>
        resp == BadRequest("user_id and step_id are required") && unchanged(this)
      ensures Admits(header) && Truthy(req.userId) && Truthy(req.stepId) ==>
        var record := ProgressRecord(
          req.userId.value, req.stepId.value,
          if req.completed.Undefined? then Defined(false) else req.completed,
          if req.metadata.Undefined? then Defined(map[]) else req.metadata,
          NormalizeBusinessType(req.businessType), createdAt);
        && progressBuffer == old(progressBuffer) + [record]
        && outbox == old(outbox)
        && (!config.supabaseConfigured ==> resp == ProgressCached(record) && storeWrites == old(storeWrites))
        && (config.supabaseConfigured ==>
              && storeWrites == old(storeWrites) + [ProgressRow(record)]
              && resp == (if insert.Inserted? then ProgressStored else ServerError(insert.message)))
        && StatusCode(resp) == (if !config.supabaseConfigured then 202 else if insert.Inserted? then 200 else 500)
    {
      if !Admits(header) {
        return Unauthorized;
      }
      if !Truthy(req.userId) || !Truthy(req.stepId) {
        return BadRequest("user_id and step_id are required");
      }
      var normalizedBusinessType := NormalizeBusinessType(req.businessType);
      var record := ProgressRecord(
        req.userId.value, req.stepId.value,
        WithDefault(req.completed, false),
        WithDefault(req.metadata, map[]),
        normalizedBusinessType, createdAt);
      progressBuffer := progressBuffer + [record];
      if !config.supabaseConfigured {
        return ProgressCached(record);
      }
      storeWrites := storeWrites + [ProgressRow(record)];
      if insert.Inserted? {
        resp := ProgressStored;
      } else {
        resp := ServerError(insert.message);
      }
    }

    /** `sendCourseEmail`: without email configuration nothing is handed to
        the provider and the answer is false; otherwise the composed message is
        handed over and the answer is whether the provider accepted it. */
    method SendCourseEmail(to: string, courseTitle: string, note: Option<string>, providerAccepts: bool)
      returns (sent: bool)
      modifies this`outbox
      ensures sent == (config.sendGridConfigured && providerAccepts)
      ensures outbox == old(outbox) +
        (if config.sendGridConfigured then [CourseEmail(to, config.sender, courseTitle, note)] else [])
    {
      if !config.sendGridConfigured {
        return false;
      }
      outbox := outbox + [CourseEmail(to, config.sender, courseTitle, note)];
      sent := providerAccepts;
    }

    /** `POST /api/course-delivery`: the email step runs first and never
        blocks the logging; the interaction is logged under `courses` with a
        message that carries the delivery marker. */
    method PostCourseDelivery(header: Option<string>, req: CourseRequest, providerAccepts: bool,
                              createdAt: string, insert: StoreOutcome)
      returns (resp: Response)
      requires Valid()
      modifies this, vstats
      ensures Valid()
      ensures !Admits(header) ==> resp == Unauthorized && unchanged(this, vstats)
      ensures Admits(header) && !(Truthy(req.email) && Truthy(req.courseTitle)) ==>
        resp == BadRequest("email and courseTitle are required") && unchanged(this, vstats)
      ensures Admits(header) && Truthy(req.email) && Truthy(req.courseTitle) ==>
        var emailSent := config.sendGridConfigured && providerAccepts;
        && outbox == old(outbox) +
             (if config.sendGridConfigured then [CourseEmail(req.email.value, config.sender, req.courseTitle.value, req.note)] else [])
        && storeWrites == old(storeWrites) +
             [InteractionRow(InteractionRecord(req.email.value, CourseDeliveryMessage(req.courseTitle.value),
                                               Some(CourseDeliveryResponse(req.note)), Courses, createdAt))]
        && progressBuffer == old(progressBuffer)
        && (insert.Threw? ==> vstats.stats == old(vstats.stats))
        && (!insert.Threw? ==>
              && Lookup(vstats.stats, Courses) ==
                   Counters(Lookup(old(vstats.stats), Courses).interactions + 1, Lookup(old(vstats.stats), Courses).deliveries + 1)
              && forall id :: id != Courses ==> Lookup(vstats.stats, id) == Lookup(old(vstats.stats), id))
        && resp == (if !insert.Inserted? then ServerError(insert.message)
                    else if emailSent then CourseDeliveryLogged("Course delivery logged and email sent", true)
                    else CourseDeliveryLogged("Logged course delivery (email not configured)", false))
    {
      if !Admits(header) {
        return Unauthorized;
      }
      if !Truthy(req.email) || !Truthy(req.courseTitle) {
        return BadRequest("email and courseTitle are required");
      }
      var emailSent := SendCourseEmail(req.email.value, req.courseTitle.value, req.note, providerAccepts);
      CourseDeliveryCountsUnderCourses(vstats.stats, req.courseTitle.value);
      CoursesIsFixed();
      var _ := LogInteraction(req.email.value, CourseDeliveryMessage(req.courseTitle.value),
                              Some(CourseDeliveryResponse(req.note)), Some(Courses), createdAt, insert);
      if !insert.Inserted? {
        resp := ServerError(insert.message);
      } else if emailSent {
        resp := CourseDeliveryLogged("Course delivery logged and email sent", emailSent);
      } else {
        resp := CourseDeliveryLogged("Logged course delivery (email not configured)", emailSent);
      }
    }

    /** `GET /api/dashboard/summary`; `queryError` is the error of the two
        store queries, when either failed. */
    method GetSummary(header: Option<string>, queryError: Option<string>) returns (resp: Response)
      requires Valid()
      ensures !Admits(header) ==> resp == Unauthorized
      ensures Admits(header) && !config.supabaseConfigured ==>
        resp == Summary("unconfigured", "Supabase credentials missing", None)
      ensures Admits(header) && config.supabaseConfigured && queryError.Some? ==>
        resp == SummaryFailed(queryError.value, "Live metrics from agent_interactions table")
      ensures Admits(header) && config.supabaseConfigured && queryError.None? ==>
        && resp.Summary? && resp.status == "connected" && resp.breakdown.Some?
        && resp.note == "Live metrics from agent_interactions table."
        && resp.breakdown.value == VerticalBreakdown(vstats.stats)
        && forall i :: 0 <= i < |BusinessTypes| ==>
             && resp.breakdown.value[i].id == BusinessTypes[i].id
             && resp.breakdown.value[i].interactions == vstats.stats[BusinessTypes[i].id].interactions
             && resp.breakdown.value[i].deliveries == vstats.stats[BusinessTypes[i].id].deliveries
    {
      if !Admits(header) {
        return Unauthorized;
      }
      if !config.supabaseConfigured {
        return Summary("unconfigured", "Supabase credentials missing", None);
      }
      if queryError.Some? {
        return SummaryFailed(queryError.value, "Live metrics from agent_interactions table");
      }
      resp := Summary("connected", "Live metrics from agent_interactions table.", Some(VerticalBreakdown(vstats.stats)));
    }

    /** `GET /api/dashboard/verticals` */
    method GetVerticals(header: Option<string>) returns (resp: Response)
      requires Valid()
      ensures !Admits(header) ==> resp == Unauthorized
      ensures Admits(header) ==> resp.VerticalsListing? && resp.types == VerticalsView(vstats.stats)
      ensures Admits(header) ==>
        && |resp.types| == |BusinessTypes|
        && forall i :: 0 <= i < |BusinessTypes| ==>
          && resp.types[i].id == BusinessTypes[i].id && resp.types[i].goal == BusinessTypes[i].goal
          && resp.types[i].interactions == vstats.stats[BusinessTypes[i].id].interactions
          && resp.types[i].deliveries == vstats.stats[BusinessTypes[i].id].deliveries
    {
      if !Admits(header) {
        return Unauthorized;
      }
      resp := VerticalsListing(VerticalsView(vstats.stats));
    }

    /** `POST /api/playbook-run`: the business type is stored as given, only
        a falsy value being replaced by `cleaning`; no counter changes. */
    method PostPlaybookRun(header: Option<string>, req: PlaybookRequest, createdAt: string, insert: StoreOutcome)
      returns (resp: Response)
      modifies this`storeWrites
      ensures !Admits(header) ==> resp == Unauthorized && storeWrites == old(storeWrites)
      ensures Admits(header) && !Truthy(req.playbookId) ==>
        resp == BadRequest("playbookId required") && storeWrites == old(storeWrites)
      ensures Admits(header) && Truthy(req.playbookId) ==>
        && storeWrites == old(storeWrites) +
             [PlaybookRow(PlaybookRun(req.playbookId.value, OrElse(req.businessType, Cleaning), createdAt))]
        && resp == (if insert.Inserted? then PlaybookRunSaved else ServerError(insert.message))
    {
      if !Admits(header) {
        return Unauthorized;
      }
      if !Truthy(req.playbookId) {
        return BadRequest("playbookId required");
      }
      storeWrites := storeWrites + [PlaybookRow(PlaybookRun(req.playbookId.value, OrElse(req.businessType, Cleaning), createdAt))];
      if insert.Inserted? {
        resp := PlaybookRunSaved;
      } else {
        resp := ServerError(insert.message);
      }
    }
  }
}
