/** The three generator stages as the client sees them
    (services/geminiService.ts) and the two server routes that build the
    language-model input and choose fallbacks (app/api/context-profile and
    app/api/delegate). The network, the language model and JSON parsing are
    parameters: what comes back from them is an `Outcome`. */
module Generation {
  import opened Util
  import opened Types

  // =====================================================================
  // Client side: services/geminiService.ts

  /** What `fetch` and `response.json()` hand back: a rejected fetch, or a
      response with its `ok` flag and the JSON field the caller reads
      (`Fail` when the body does not parse). */
  datatype Fetched<+T> = NetworkError | Response(ok: bool, body: Outcome<T>)

  predicate Succeeded<T>(f: Fetched<T>) {
    f.Response? && f.ok && f.body.Ok?
  }

  const FallbackQuestions: seq<string> := [
    "What is your main goal with this post?",
    "Who is the specific target audience?",
    "What assumptions are you making that aren't stated?"
  ]

  const IntentFallback := "To share an opinion."
  const ToneFallback := "Neutral"
  const AssumptionsFallback := "None explicitly stated."
  const AudienceFallback := "General public"
  const UnableToRespond := "I am unable to respond at this moment."
  const CannotClarify := "I cannot clarify that based on the current context."

  /** generateInterviewQuestions: the `questions` of a successful reply, as
      they are (no length check), or the three fixed questions on any failure. */
  function InterviewQuestions(reply: Fetched<seq<string>>): (r: seq<string>)
    ensures Succeeded(reply) ==> r == reply.body.value
    ensures !Succeeded(reply) ==> r == FallbackQuestions && |r| == 3
  {
    match reply
    case Response(true, Ok(questions)) => questions
    case _ => FallbackQuestions
  }

  /** The profile generateContextProfile falls back to: neutral, with the
      draft itself as the core argument. */
  function ClientFallbackProfile(draft: string): (p: ContextProfile)
    ensures p.coreArgument == draft
  {
    ContextProfile(IntentFallback, ToneFallback, AssumptionsFallback, AudienceFallback, draft)
  }

  /** The request body generateContextProfile posts. */
  datatype ProfileRequest = ProfileRequest(draft: string, interviewHistory: seq<Message>)

  /** generateContextProfile: the reply's `profile`, or the neutral profile. */
  function ContextProfileFor(draft: string, reply: Fetched<ContextProfile>): (r: ContextProfile)
    ensures Succeeded(reply) ==> r == reply.body.value
    ensures !Succeeded(reply) ==> r == ClientFallbackProfile(draft)
  {
    match reply
    case Response(true, Ok(profile)) => profile
    case _ => ClientFallbackProfile(draft)
  }

  /** The request body generateDelegateResponse posts. */
  datatype DelegateRequest = DelegateRequest(
    originalPost: string,
    profile: ContextProfile,
    userQuery: string,
    chatHistory: seq<Message>)

  /** generateDelegateResponse builds its request from its four arguments
      alone; the whole history travels, the server does the windowing. */
  function DelegateRequestFor(originalPost: string, profile: ContextProfile, userQuery: string,
                              chatHistory: seq<Message>): (req: DelegateRequest)
    ensures req.chatHistory == chatHistory && req.userQuery == userQuery
    ensures req.originalPost == originalPost && req.profile == profile
  {
    DelegateRequest(originalPost, profile, userQuery, chatHistory)
  }

  /** generateDelegateResponse: the reply's `response`, or the apology. */
  function DelegateReply(reply: Fetched<string>): (r: string)
    ensures Succeeded(reply) ==> r == reply.body.value
    ensures !Succeeded(reply) ==> r == UnableToRespond
  {
    match reply
    case Response(true, Ok(text)) => text
    case _ => UnableToRespond
  }

  /** A successful interview reply may hold any number of questions, none
      included: nothing pads or trims it to three. */
  lemma InterviewKeepsAnyCount(questions: seq<string>)
    ensures |InterviewQuestions(Response(true, Ok(questions)))| == |questions|
    ensures InterviewQuestions(Response(true, Ok([]))) == []
  {
  }

  /** A non-2xx status fails the interview call whatever the body says. */
  lemma InterviewErrorStatusFallsBack(body: Outcome<seq<string>>)
    ensures InterviewQuestions(Response(false, body)) == FallbackQuestions
  {
  }

  // =====================================================================
  // Server side: app/api/context-profile/route.ts

  /** A profile as `JSON.parse` yields it: nothing checks that the five
      fields are there. */
  datatype RawProfile = RawProfile(
    intent: Option<string>,
    tone: Option<string>,
    assumptions: Option<string>,
    audience: Option<string>,
    coreArgument: Option<string>)

  predicate Complete(p: RawProfile) {
    p.intent.Some? && p.tone.Some? && p.assumptions.Some? && p.audience.Some? && p.coreArgument.Some?
  }

  /** The route's fallback: neutral, with an empty core argument. */
  const ServerFallbackProfile: RawProfile :=
    RawProfile(Some(IntentFallback), Some(ToneFallback), Some(AssumptionsFallback), Some(AudienceFallback), Some(""))

  /** The role as the transcript spells it: `role.toUpperCase()`. */
  function UpperRole(role: Role): string {
    match role
    case UserRole => "USER"
    case ModelRole => "MODEL"
    case SystemRole => "SYSTEM"
  }

  /** One transcript line per message, in message order. */
  function TranscriptLines(history: seq<Message>): (lines: seq<string>)
    ensures |lines| == |history|
    ensures forall i :: 0 <= i < |history| ==> lines[i] == UpperRole(history[i].role) + ": " + history[i].content
  {
    seq(|history|, i requires 0 <= i < |history| => UpperRole(history[i].role) + ": " + history[i].content)
  }

  /** The transcript text placed in the synthesis prompt. */
  function TranscriptText(history: seq<Message>): string {
    Join(TranscriptLines(history), "\n")
  }

  /** The transcript text can be read back line by line: when no message
      contains a line break, splitting it at "\n" gives exactly one
      `ROLE: content` line per message, in order. */
  lemma TranscriptLinesRecoverable(history: seq<Message>)
    requires |history| >= 1
    requires forall i :: 0 <= i < |history| ==> '\n' !in history[i].content
    ensures Split(TranscriptText(history), '\n') == TranscriptLines(history)
  {
    var lines := TranscriptLines(history);
    forall k | 0 <= k < |lines| ensures '\n' !in lines[k] {
      LineHasNoBreak(UpperRole(history[k].role), history[k].content);
    }
    SplitJoin(lines, '\n');
  }

  /** A `speaker: content` line has no line break when neither part has. */
  lemma LineHasNoBreak(speaker: string, content: string)
    requires speaker in {"USER", "MODEL", "SYSTEM", "Reader", "Author Delegate"}
    requires '\n' !in content
    ensures '\n' !in speaker + ": " + content
  {
  }

  datatype ProfileResponse = ProfileResponse(profile: RawProfile, status: int)

  /** POST /api/context-profile. `request` is the parsed request body,
      `hasApiKey` whether the server holds a model key, `generate` the model
      call on (draft, transcript text) and `parse` the `JSON.parse` of its
      text. Every failure, an empty text included, yields the fallback. */
  function ProfileRoute(request: Outcome<ProfileRequest>, hasApiKey: bool,
                        generate: (string, string) -> Outcome<string>,
                        parse: string -> Outcome<RawProfile>): (r: ProfileResponse)
    ensures r.status == 200
    ensures request.Fail? || !hasApiKey ==> r.profile == ServerFallbackProfile
    ensures request.Ok? && hasApiKey ==>
              var g := generate(request.value.draft, TranscriptText(request.value.interviewHistory));
              && (g.Fail? ==> r.profile == ServerFallbackProfile)
              && (g.Ok? && g.value != "" && parse(g.value).Fail? ==> r.profile == ServerFallbackProfile)
              && (g.Ok? && g.value != "" && parse(g.value).Ok? ==> r.profile == parse(g.value).value)
  {
    match request
    case Fail => ProfileResponse(ServerFallbackProfile, 200)
    case Ok(req) =>
      if !hasApiKey then ProfileResponse(ServerFallbackProfile, 200)
      else
        match generate(req.draft, TranscriptText(req.interviewHistory))
        case Fail => ProfileResponse(ServerFallbackProfile, 200)
        case Ok(text) =>
          if text == "" then ProfileResponse(ServerFallbackProfile, 200)
          else
            match parse(text)
            case Fail => ProfileResponse(ServerFallbackProfile, 200)
            case Ok(profile) => ProfileResponse(profile, 200)
  }

  /** An empty model text is a failure, not an empty profile. */
  lemma ProfileRouteEmptyText(req: ProfileRequest, generate: (string, string) -> Outcome<string>,
                              parse: string -> Outcome<RawProfile>)
    requires generate(req.draft, TranscriptText(req.interviewHistory)) == Ok("")
    ensures ProfileRoute(Ok(req), true, generate, parse).profile == ServerFallbackProfile
  {
  }

  /** A parsed reply is returned as it is: a model JSON missing fields
      reaches the client incomplete, while the fallback is always complete. */
  lemma ProfileRouteDoesNotValidate(req: ProfileRequest, text: string)
    requires text != ""
    ensures var partial := RawProfile(Some("x"), None, None, None, None);
            var r := ProfileRoute(Ok(req), true, (d, t) => Ok(text), s => Ok(partial));
            r.profile == partial && !Complete(r.profile)
    ensures Complete(ServerFallbackProfile)
  {
  }

  /** A complete route profile as the client's ContextProfile. */
  function AsProfile(p: RawProfile): (c: ContextProfile)
    requires Complete(p)
    ensures Some(c.intent) == p.intent && Some(c.tone) == p.tone && Some(c.assumptions) == p.assumptions
    ensures Some(c.audience) == p.audience && Some(c.coreArgument) == p.coreArgument
  {
    ContextProfile(p.intent.value, p.tone.value, p.assumptions.value, p.audience.value, p.coreArgument.value)
  }

  /** What generateContextProfile receives from the route: nothing when the
      network fails, otherwise the route's status-200 JSON. A profile with
      missing fields is not a ContextProfile, so it arrives as a body the
      client cannot read. */
  function ProfileReplyFrom(route: ProfileResponse, networkUp: bool): (f: Fetched<ContextProfile>)
    ensures !networkUp <==> f.NetworkError?
    ensures networkUp ==> (f.ok <==> 200 <= route.status < 300)
    ensures networkUp && 200 <= route.status < 300 && Complete(route.profile) ==>
              Succeeded(f) && f.body.value == AsProfile(route.profile)
  {
    if !networkUp then NetworkError
    else if Complete(route.profile) then Response(200 <= route.status < 300, Ok(AsProfile(route.profile)))
    else Response(200 <= route.status < 300, Fail)
  }

  /** generateContextProfile end to end: the client's request reaches the
      route, and the route's reply decides the profile. */
  function ProfileEndToEnd(draft: string, history: seq<Message>, networkUp: bool, hasApiKey: bool,
                           generate: (string, string) -> Outcome<string>,
                           parse: string -> Outcome<RawProfile>): ContextProfile
  {
    var route := ProfileRoute(Ok(ProfileRequest(draft, history)), hasApiKey, generate, parse);
    ContextProfileFor(draft, ProfileReplyFrom(route, networkUp))
  }

  /** The client's own fallback (the draft as core argument) appears only
      when the network fails. Every failure inside the route reaches the
      client as the route's fallback, whose core argument is empty. A
      complete parsed profile arrives as it is. */
  lemma ProfileEndToEndResult(draft: string, history: seq<Message>, networkUp: bool, hasApiKey: bool,
                              generate: (string, string) -> Outcome<string>,
                              parse: string -> Outcome<RawProfile>)
    ensures var r := ProfileEndToEnd(draft, history, networkUp, hasApiKey, generate, parse);
            var g := generate(draft, TranscriptText(history));
            && (!networkUp ==> r == ClientFallbackProfile(draft))
            && (networkUp && (!hasApiKey || g.Fail? || g == Ok("") || parse(g.value).Fail?) ==>
                  r == AsProfile(ServerFallbackProfile) && r.coreArgument == "")
            && (networkUp && hasApiKey && g.Ok? && g.value != "" && parse(g.value).Ok? && Complete(parse(g.value).value) ==>
                  r == AsProfile(parse(g.value).value))
  {
  }

  /** The two fallback profiles disagree: the client keeps the draft as the
      core argument, the route leaves it empty; the other four fields agree. */
  lemma FallbackProfilesDisagree(draft: string)
    requires draft != ""
    ensures ServerFallbackProfile.coreArgument != Some(ClientFallbackProfile(draft).coreArgument)
    ensures ServerFallbackProfile.intent == Some(ClientFallbackProfile(draft).intent)
    ensures ServerFallbackProfile.tone == Some(ClientFallbackProfile(draft).tone)
    ensures ServerFallbackProfile.assumptions == Some(ClientFallbackProfile(draft).assumptions)
    ensures ServerFallbackProfile.audience == Some(ClientFallbackProfile(draft).audience)
  {
  }

  // =====================================================================
  // Server side: app/api/delegate/route.ts

  /** `chatHistory.slice(-5)`: the last five entries, or all of them. */
  function HistoryWindow(history: seq<Message>): (w: seq<Message>)
    ensures |w| == if |history| < 5 then |history| else 5
    ensures history == history[..|history| - |w|] + w
  {
    if |history| <= 5 then history else history[|history| - 5..]
  }

  /** "user" speaks as the Reader; "model" and "system" as the delegate. */
  function SpeakerLabel(role: Role): string {
    if role == UserRole then "Reader" else "Author Delegate"
  }

  function HistoryLines(history: seq<Message>): (lines: seq<string>)
    ensures var w := HistoryWindow(history);
            |lines| == |w| &&
            forall i :: 0 <= i < |w| ==> lines[i] == SpeakerLabel(w[i].role) + ": " + w[i].content
  {
    var w := HistoryWindow(history);
    seq(|w|, i requires 0 <= i < |w| => SpeakerLabel(w[i].role) + ": " + w[i].content)
  }

  /** The "Previous Chat" text of the delegate prompt. */
  function HistoryText(history: seq<Message>): string {
    Join(HistoryLines(history), "\n")
  }

  lemma EmptyHistoryText()
    ensures HistoryText([]) == ""
  {
  }

  /** The history text holds exactly min(5, n) lines, one per kept message,
      when no message contains a line break. */
  lemma HistoryTextLines(history: seq<Message>)
    requires |history| >= 1
    requires forall i :: 0 <= i < |history| ==> '\n' !in history[i].content
    ensures |Split(HistoryText(history), '\n')| == if |history| < 5 then |history| else 5
    ensures Split(HistoryText(history), '\n') == HistoryLines(history)
  {
    var w := HistoryWindow(history);
    var lines := HistoryLines(history);
    forall k | 0 <= k < |lines| ensures '\n' !in lines[k] {
      assert w[k] == history[|history| - |w| + k];
      LineHasNoBreak(SpeakerLabel(w[k].role), w[k].content);
    }
    SplitJoin(lines, '\n');
  }

  /** What the delegate's system instruction carries besides its fixed
      wording: the post and four of the five profile fields. */
  datatype DelegateInstruction = DelegateInstruction(
    originalPost: string,
    intent: string,
    tone: string,
    assumptions: string,
    coreArgument: string)

  function InstructionFor(originalPost: string, profile: ContextProfile): DelegateInstruction {
    DelegateInstruction(originalPost, profile.intent, profile.tone, profile.assumptions, profile.coreArgument)
  }

  /** The audience field never reaches the delegate: for every request,
      model key and model call, two requests whose profiles differ only in
      their audience get the same reply from the route. */
  lemma InstructionIgnoresAudience(req: DelegateRequest, audience: string, hasApiKey: bool,
                                   generate: (DelegateInstruction, string) -> Outcome<string>)
    ensures DelegateRoute(Ok(req.(profile := req.profile.(audience := audience))), hasApiKey, generate)
            == DelegateRoute(Ok(req), hasApiKey, generate)
  {
  }

  const ChatHeader := "\n        Previous Chat:\n        "
  const ReaderLead := "\n\n        Reader: "
  const ChatTrailer := "\n      "

  /** The `contents` of the delegate call: the history, then the query as
      the Reader's next line. */
  function DelegateContents(historyText: string, userQuery: string): (c: string)
    ensures ChatHeader + historyText <= c
    ensures c[|ChatHeader + historyText|..] == ReaderLead + userQuery + ChatTrailer
  {
    ChatHeader + historyText + ReaderLead + userQuery + ChatTrailer
  }

  datatype DelegateResponse = DelegateResponse(response: string, status: int)

  /** POST /api/delegate: `generate` is the model call on the instruction
      and the contents. Any thrown error gives the apology, an empty text
      the "cannot clarify" reply, always with status 200. */
  function DelegateRoute(request: Outcome<DelegateRequest>, hasApiKey: bool,
                         generate: (DelegateInstruction, string) -> Outcome<string>): (r: DelegateResponse)
    ensures r.status == 200 && r.response != ""
    ensures request.Fail? || !hasApiKey ==> r.response == UnableToRespond
  {
    match request
    case Fail => DelegateResponse(UnableToRespond, 200)
    case Ok(req) =>
      if !hasApiKey then DelegateResponse(UnableToRespond, 200)
      else
        var contents := DelegateContents(HistoryText(req.chatHistory), req.userQuery);
        match generate(InstructionFor(req.originalPost, req.profile), contents)
        case Fail => DelegateResponse(UnableToRespond, 200)
        case Ok(text) => DelegateResponse(if text == "" then CannotClarify else text, 200)
  }

  /** The reply the client shows when its request reaches the route (or the
      network fails first). */
  function DelegateEndToEnd(originalPost: string, profile: ContextProfile, userQuery: string,
                            chatHistory: seq<Message>, networkUp: bool, hasApiKey: bool,
                            generate: (DelegateInstruction, string) -> Outcome<string>): string
  {
    var req := DelegateRequestFor(originalPost, profile, userQuery, chatHistory);
    if !networkUp then DelegateReply(NetworkError)
    else DelegateReply(Response(true, Ok(DelegateRoute(Ok(req), hasApiKey, generate).response)))
  }

  /** End to end, the reader never sees an empty reply, the model sees only
      the last five history entries, and a failed or empty generation
      becomes one of the two fixed replies. */
  lemma DelegateEndToEndReply(originalPost: string, profile: ContextProfile, userQuery: string,
                              chatHistory: seq<Message>, networkUp: bool, hasApiKey: bool,
                              generate: (DelegateInstruction, string) -> Outcome<string>)
    ensures var r := DelegateEndToEnd(originalPost, profile, userQuery, chatHistory, networkUp, hasApiKey, generate);
            var call := generate(InstructionFor(originalPost, profile),
                                 DelegateContents(HistoryText(chatHistory), userQuery));
            && r != ""
            && (!networkUp || !hasApiKey || call.Fail? ==> r == UnableToRespond)
            && (networkUp && hasApiKey && call == Ok("") ==> r == CannotClarify)
            && (networkUp && hasApiKey && call.Ok? && call.value != "" ==> r == call.value)
  {
  }
}
