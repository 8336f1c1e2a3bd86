/** The post composer (components/ComposeFlow.tsx): a draft, an interview
    that asks the generated questions one at a time, a summary of the
    answers, and a review of the synthesised context profile before
    publishing. `now` stands for `Date.now()`; the 600 ms typing delays are
    collapsed into the handler that starts them. */
module ComposeFlow {
  import opened Util
  import opened Types
  import opened Generation

  datatype Step = Draft | Interview | Summary | Review

  const IntroLead := "I've read your draft. Let's clarify a few things to build your context profile.\n\n"

  function IntroMessage(firstQuestion: string, now: int): Message {
    Message("intro", ModelRole, IntroLead + firstQuestion, now)
  }

  function AnswerMessage(i: nat, answer: string, now: int): Message {
    Message("ans-" + NatToString(i), UserRole, answer, now)
  }

  function QuestionMessage(i: nat, question: string, now: int): Message {
    Message("q-" + NatToString(i), ModelRole, question, now)
  }

  /** The chat handleEditAt rebuilds for question `index`: the intro, then
      for each earlier question the recorded answer and the next question. */
  function Replay(questions: seq<string>, answers: seq<string>, index: nat, now: int): seq<Message>
    requires |questions| == |answers| && index < |questions|
    decreases index
  {
    if index == 0 then [IntroMessage(questions[0], now)]
    else Replay(questions, answers, index - 1, now)
         + [AnswerMessage(index - 1, answers[index - 1], now), QuestionMessage(index, questions[index], now)]
  }

  /** The replay holds 1 + 2·index messages: the intro ending in the first
      question, then answer j followed by question j + 1 for every j < index. */
  lemma {:induction false} ReplayShape(questions: seq<string>, answers: seq<string>, index: nat, now: int)
    requires |questions| == |answers| && index < |questions|
    ensures var r := Replay(questions, answers, index, now);
            && |r| == 1 + 2 * index
            && r[0] == IntroMessage(questions[0], now)
            && r[0].content == IntroLead + questions[0]
            && forall j :: 0 <= j < index ==>
                 && r[1 + 2 * j] == AnswerMessage(j, answers[j], now)
                 && r[2 + 2 * j] == QuestionMessage(j + 1, questions[j + 1], now)
    decreases index
  {
    if index > 0 {
      ReplayShape(questions, answers, index - 1, now);
    }
  }

  /** Two message lists show the same conversation: same speakers, same
      texts, whatever their ids and timestamps. */
  predicate SameChat(a: seq<Message>, b: seq<Message>) {
    |a| == |b| && forall k :: 0 <= k < |a| ==> a[k].role == b[k].role && a[k].content == b[k].content
  }

  lemma SameChatAppend(a: seq<Message>, b: seq<Message>, c: seq<Message>, d: seq<Message>)
    requires SameChat(a, b) && SameChat(c, d)
    ensures SameChat(a + c, b + d)
  {
  }

  /** The replay's conversation depends only on the questions, the answers
      and the index, not on when it is rebuilt. */
  lemma {:induction false} ReplayTimeless(questions: seq<string>, answers: seq<string>, index: nat, t1: int, t2: int)
    requires |questions| == |answers| && index < |questions|
    ensures SameChat(Replay(questions, answers, index, t1), Replay(questions, answers, index, t2))
    decreases index
  {
    if index > 0 {
      ReplayTimeless(questions, answers, index - 1, t1, t2);
      SameChatAppend(Replay(questions, answers, index - 1, t1), Replay(questions, answers, index - 1, t2),
                     [AnswerMessage(index - 1, answers[index - 1], t1), QuestionMessage(index, questions[index], t1)],
                     [AnswerMessage(index - 1, answers[index - 1], t2), QuestionMessage(index, questions[index], t2)]);
    }
  }

  /** The replay reads only the answers before `index`. */
  lemma {:induction false} ReplayReadsEarlierAnswers(questions: seq<string>, a1: seq<string>, a2: seq<string>, index: nat, now: int)
    requires |questions| == |a1| == |a2| && index < |questions|
    requires forall j :: 0 <= j < index ==> a1[j] == a2[j]
    ensures Replay(questions, a1, index, now) == Replay(questions, a2, index, now)
    decreases index
  {
    if index > 0 {
      ReplayReadsEarlierAnswers(questions, a1, a2, index - 1, now);
    }
  }

  /** The synthesis transcript: the flatMap of every question with its answer. */
  function CleanHistory(questions: seq<string>, answers: seq<string>): seq<Message>
    requires |questions| == |answers|
    decreases |questions|
  {
    if |questions| == 0 then []
    else
      var n := |questions| - 1;
      CleanHistory(questions[..n], answers[..n])
      + [Message("q-" + NatToString(n), ModelRole, questions[n], 0),
         Message("a-" + NatToString(n), UserRole, answers[n], 0)]
  }

  /** The transcript holds 2·n messages alternating the model's question i
      and the user's answer i, in question order. */
  lemma {:induction false} CleanHistoryShape(questions: seq<string>, answers: seq<string>)
    requires |questions| == |answers|
    ensures var h := CleanHistory(questions, answers);
            && |h| == 2 * |questions|
            && forall i :: 0 <= i < |questions| ==>
                 && h[2 * i].role == ModelRole && h[2 * i].content == questions[i]
                 && h[2 * i + 1].role == UserRole && h[2 * i + 1].content == answers[i]
    decreases |questions|
  {
    if |questions| > 0 {
      var n := |questions| - 1;
      CleanHistoryShape(questions[..n], answers[..n]);
    }
  }

  /** What the context-profile route sees of the transcript: the lines
      alternate `MODEL: question i` and `USER: answer i`. */
  lemma ComposeTranscriptLines(questions: seq<string>, answers: seq<string>)
    requires |questions| == |answers|
    ensures var lines := TranscriptLines(CleanHistory(questions, answers));
            && |lines| == 2 * |questions|
            && forall i :: 0 <= i < |questions| ==>
                 lines[2 * i] == "MODEL: " + questions[i] && lines[2 * i + 1] == "USER: " + answers[i]
  {
    CleanHistoryShape(questions, answers);
  }

  /** The composer's invariant: one answer slot per question; the index
      points at a question outside DRAFT; the interview chat is the replay
      of the current state (after the last answer, followed by that answer);
      every answer given so far is non-blank. */
  ghost predicate ComposerInv(step: Step, questions: seq<string>, answers: seq<string>, index: nat,
                              messages: seq<Message>, profile: Option<ContextProfile>)
  {
    && |answers| == |questions|
    && (step == Draft ==> questions == [] && messages == [] && index == 0)
    && (step != Draft ==> index < |questions|)
    && (step == Interview ==>
          && SameChat(messages, Replay(questions, answers, index, 0))
          && forall j :: 0 <= j < index ==> !IsBlank(answers[j]))
    && (step == Summary || step == Review ==>
          && index == |questions| - 1
          && SameChat(messages, Replay(questions, answers, index, 0) + [AnswerMessage(index, answers[index], 0)])
          && forall j :: 0 <= j < |answers| ==> !IsBlank(answers[j]))
    && (step == Review ==> profile.Some?)
  }

  /** Going back to question `target` rebuilds a chat that satisfies the
      invariant in the INTERVIEW step. */
  lemma EditAtKeepsInv(step: Step, questions: seq<string>, answers: seq<string>, index: nat,
                       messages: seq<Message>, profile: Option<ContextProfile>, target: nat, now: int)
    requires ComposerInv(step, questions, answers, index, messages, profile)
    requires (step == Interview || step == Summary) && target < |questions|
    requires step == Interview ==> target <= index
    ensures ComposerInv(Interview, questions, answers, target, Replay(questions, answers, target, now), profile)
  {
    ReplayTimeless(questions, answers, target, now, 0);
  }

  /** Recording a non-blank answer at `index` and showing it (plus the next
      question when there is one) keeps the invariant. */
  lemma SendAnswerKeepsInv(questions: seq<string>, answers: seq<string>, index: nat,
                           messages: seq<Message>, profile: Option<ContextProfile>, answer: string, now: int)
    requires ComposerInv(Interview, questions, answers, index, messages, profile)
    requires !IsBlank(answer)
    ensures var answers' := answers[index := answer];
            var userMessage := Message(IntToString(now), UserRole, answer, now);
            && (index + 1 < |questions| ==>
                  ComposerInv(Interview, questions, answers', index + 1,
                              messages + [userMessage] + [Message(IntToString(now + 1), ModelRole, questions[index + 1], now)],
                              profile))
            && (index + 1 == |questions| ==>
                  ComposerInv(Summary, questions, answers', index, messages + [userMessage], profile))
  {
    var answers' := answers[index := answer];
    var userMessage := Message(IntToString(now), UserRole, answer, now);
    ReplayReadsEarlierAnswers(questions, answers, answers', index, 0);
    var before := Replay(questions, answers', index, 0);
    if index + 1 < |questions| {
      var next := Message(IntToString(now + 1), ModelRole, questions[index + 1], now);
      assert Replay(questions, answers', index + 1, 0)
          == before + [AnswerMessage(index, answer, 0), QuestionMessage(index + 1, questions[index + 1], 0)];
      SameChatAppend(messages, before, [userMessage, next],
                     [AnswerMessage(index, answer, 0), QuestionMessage(index + 1, questions[index + 1], 0)]);
      assert messages + [userMessage, next] == messages + [userMessage] + [next];
    } else {
      SameChatAppend(messages, before, [userMessage], [AnswerMessage(index, answer, 0)]);
    }
  }

  class Composer {
    var step: Step
    var draft: string
    var attachedImage: Option<string>
    var messages: seq<Message>
    var answerInput: string
    var questionQueue: seq<string>
    var answers: seq<string>
    var currentQuestionIndex: nat
    var profile: Option<ContextProfile>

    /** The composer's invariant, on its current fields. */
    ghost predicate Valid()
      reads this
    {
      ComposerInv(step, questionQueue, answers, currentQuestionIndex, messages, profile)
    }

    constructor ()
      ensures Valid()
      ensures step == Draft && draft == "" && answerInput == "" && attachedImage.None? && profile.None?
    {
      step := Draft;
      draft := "";
      attachedImage := None;
      messages := [];
      answerInput := "";
      questionQueue := [];
      answers := [];
      currentQuestionIndex := 0;
      profile := None;
    }

    /** The draft text area. */
    method SetDraft(text: string)
      requires Valid()
      modifies this
      ensures Valid()
      ensures draft == text
      ensures step == old(step) && messages == old(messages) && answers == old(answers)
      ensures questionQueue == old(questionQueue) && profile == old(profile)
      ensures currentQuestionIndex == old(currentQuestionIndex) && answerInput == old(answerInput)
      ensures attachedImage == old(attachedImage)
    {
      draft := text;
    }

    /** The answer text area. */
    method SetAnswerInput(text: string)
      requires Valid()
      modifies this
      ensures Valid()
      ensures answerInput == text
      ensures step == old(step) && messages == old(messages) && answers == old(answers)
      ensures questionQueue == old(questionQueue) && profile == old(profile)
      ensures currentQuestionIndex == old(currentQuestionIndex) && draft == old(draft)
      ensures attachedImage == old(attachedImage)
    {
      answerInput := text;
    }

    /** The image reader finished: its data URL becomes the attachment. */
    method AttachImage(dataUrl: string)
      requires Valid()
      modifies this
      ensures Valid()
      ensures attachedImage == Some(dataUrl)
      ensures step == old(step) && messages == old(messages) && answers == old(answers)
      ensures questionQueue == old(questionQueue) && profile == old(profile) && draft == old(draft)
      ensures currentQuestionIndex == old(currentQuestionIndex) && answerInput == old(answerInput)
    {
      attachedImage := Some(dataUrl);
    }

    /** The remove button on the image preview. */
    method DetachImage()
      requires Valid()
      modifies this
      ensures Valid()
      ensures attachedImage.None?
      ensures step == old(step) && messages == old(messages) && answers == old(answers)
      ensures questionQueue == old(questionQueue) && profile == old(profile) && draft == old(draft)
      ensures currentQuestionIndex == old(currentQuestionIndex) && answerInput == old(answerInput)
    {
      attachedImage := None;
    }

    /** handleStartInterview, offered in the DRAFT view; `reply` is what the
        interview request returned. */
    method StartInterview(reply: Fetched<seq<string>>, now: int)
      requires Valid() && step == Draft
      modifies this
      ensures Valid()
      ensures draft == old(draft) && answerInput == old(answerInput) && profile == old(profile)
      ensures attachedImage == old(attachedImage)
      ensures IsBlank(draft) ==>
                step == Draft && questionQueue == old(questionQueue) && answers == old(answers)
                && messages == old(messages) && currentQuestionIndex == old(currentQuestionIndex)
      ensures !IsBlank(draft) ==>
                var questions := InterviewQuestions(reply);
                && questionQueue == questions
                && |answers| == |questions| && (forall j :: 0 <= j < |answers| ==> answers[j] == "")
                && currentQuestionIndex == 0
                && (|questions| > 0 ==> step == Interview && messages == [IntroMessage(questions[0], now)])
                && (|questions| == 0 ==> step == Draft && messages == old(messages))
    {
      if IsBlank(draft) {
        return;
      }
      var questions := InterviewQuestions(reply);
      questionQueue := questions;
      answers := seq(|questions|, _ => "");
      currentQuestionIndex := 0;
      if |questions| > 0 {
        messages := [IntroMessage(questions[0], now)];
        step := Interview;
      }
    }

    /** handleEditAt: go back to question `index`, rebuilding the chat up to
        it and putting its recorded answer back into the answer box. Called
        from the summary list and from Back. */
    method EditAt(index: nat, now: int)
      requires Valid() && (step == Interview || step == Summary)
      requires index < |questionQueue|
      requires step == Interview ==> index <= currentQuestionIndex
      modifies this
      ensures Valid()
      ensures step == Interview && currentQuestionIndex == index
      ensures answerInput == answers[index]
      ensures messages == Replay(questionQueue, answers, index, now)
      ensures questionQueue == old(questionQueue) && answers == old(answers)
      ensures draft == old(draft) && profile == old(profile) && attachedImage == old(attachedImage)
    {
      var questions, recorded := questionQueue, answers;
      EditAtKeepsInv(step, questions, recorded, currentQuestionIndex, messages, profile, index, now);
      currentQuestionIndex := index;
      answerInput := recorded[index];
      var newMessages := [IntroMessage(questions[0], now)];
      for i := 0 to index
        invariant newMessages == Replay(questions, recorded, i, now)
      {
        var pair := [AnswerMessage(i, recorded[i], now), QuestionMessage(i + 1, questions[i + 1], now)];
        assert Replay(questions, recorded, i + 1, now) == newMessages + pair;
        newMessages := newMessages + pair;
      }
      messages := newMessages;
      step := Interview;
    }

    /** handleBack, offered outside the DRAFT view. */
    method Back(now: int)
      requires Valid()
      modifies this
      ensures Valid()
      ensures draft == old(draft) && profile == old(profile) && attachedImage == old(attachedImage)
      ensures old(step) == Draft ==>
                step == Draft && messages == old(messages) && questionQueue == old(questionQueue)
                && answers == old(answers) && currentQuestionIndex == old(currentQuestionIndex)
                && answerInput == old(answerInput)
      ensures old(step) == Interview && old(currentQuestionIndex) == 0 ==>
                step == Draft && messages == [] && questionQueue == [] && answers == []
                && currentQuestionIndex == old(currentQuestionIndex) && answerInput == old(answerInput)
      ensures old(step) == Interview && old(currentQuestionIndex) > 0 ==>
                step == Interview && currentQuestionIndex == old(currentQuestionIndex) - 1
                && questionQueue == old(questionQueue) && answers == old(answers)
                && messages == Replay(questionQueue, answers, currentQuestionIndex, now)
                && answerInput == answers[currentQuestionIndex]
      ensures old(step) == Summary ==>
                step == Interview && currentQuestionIndex == |questionQueue| - 1
                && questionQueue == old(questionQueue) && answers == old(answers)
                && messages == Replay(questionQueue, answers, currentQuestionIndex, now)
                && answerInput == answers[currentQuestionIndex]
      ensures old(step) == Review ==>
                step == Summary && messages == old(messages) && questionQueue == old(questionQueue)
                && answers == old(answers) && currentQuestionIndex == old(currentQuestionIndex)
                && answerInput == old(answerInput)
    {
      if step == Interview {
        if currentQuestionIndex > 0 {
          EditAt(currentQuestionIndex - 1, now);
        } else {
          step := Draft;
          messages := [];
          questionQueue := [];
          answers := [];
        }
      } else if step == Summary {
        EditAt(|questionQueue| - 1, now);
      } else if step == Review {
        step := Summary;
      }
    }

    /** handleSendAnswer with its delayed follow-up, offered in the
        INTERVIEW view. */
    method SendAnswer(now: int)
      requires Valid() && step == Interview
      modifies this
      ensures Valid()
      ensures draft == old(draft) && profile == old(profile) && attachedImage == old(attachedImage)
      ensures questionQueue == old(questionQueue)
      ensures IsBlank(old(answerInput)) ==>
                step == Interview && messages == old(messages) && answers == old(answers)
                && answerInput == old(answerInput) && currentQuestionIndex == old(currentQuestionIndex)
      ensures !IsBlank(old(answerInput)) ==>
                var i := old(currentQuestionIndex);
                var userMessage := Message(IntToString(now), UserRole, old(answerInput), now);
                && answers == old(answers)[i := old(answerInput)]
                && answerInput == ""
                && (i + 1 < |questionQueue| ==>
                      && step == Interview && currentQuestionIndex == i + 1
                      && messages == old(messages) + [userMessage]
                           + [Message(IntToString(now + 1), ModelRole, questionQueue[i + 1], now)])
                && (i + 1 == |questionQueue| ==>
                      step == Summary && currentQuestionIndex == i && messages == old(messages) + [userMessage])
    {
      if IsBlank(answerInput) {
        return;
      }
      var i, input := currentQuestionIndex, answerInput;
      SendAnswerKeepsInv(questionQueue, answers, i, messages, profile, input, now);
      var updatedAnswers := answers;
      updatedAnswers := updatedAnswers[i := input];
      answers := updatedAnswers;
      var userMessage := Message(IntToString(now), UserRole, input, now);
      messages := messages + [userMessage];
      answerInput := "";
      var nextIndex := i + 1;
      if nextIndex < |questionQueue| {
        var aiMessage := Message(IntToString(now + 1), ModelRole, questionQueue[nextIndex], now);
        messages := messages + [aiMessage];
        currentQuestionIndex := nextIndex;
      } else {
        step := Summary;
      }
    }

    /** handleSynthesize, offered in the SUMMARY view: the transcript goes
        to the profile generator and its reply becomes the profile. */
    method Synthesize(reply: Fetched<ContextProfile>) returns (request: ProfileRequest)
      requires Valid() && step == Summary
      modifies this
      ensures Valid()
      ensures request == ProfileRequest(draft, CleanHistory(questionQueue, answers))
      ensures profile == Some(ContextProfileFor(draft, reply)) && step == Review
      ensures draft == old(draft) && messages == old(messages) && questionQueue == old(questionQueue)
      ensures answers == old(answers) && currentQuestionIndex == old(currentQuestionIndex)
      ensures answerInput == old(answerInput) && attachedImage == old(attachedImage)
    {
      request := ProfileRequest(draft, CleanHistory(questionQueue, answers));
      profile := Some(ContextProfileFor(draft, reply));
      step := Review;
    }

    /** handleFinalPublish: the post handed to `onPublish` (the composer
        then closes), or nothing without a profile. */
    method FinalPublish(currentUser: User, now: int) returns (published: Option<Post>)
      ensures profile.None? <==> published.None?
      ensures published.Some? ==>
                var p := published.value;
                && p.content == draft && p.contextProfile == profile.value
                && p.likes == 0 && p.replyCount == 0 && !p.isLiked
                && p.authorName == currentUser.name && p.authorHandle == currentUser.handle
                && p.avatarUrl == currentUser.avatarUrl
                && p.id == IntToString(now) && p.timestamp == Millis(now)
                && (p.imageUrl.Some? <==> attachedImage.Some? && attachedImage.value != "")
                && (p.imageUrl.Some? ==> p.imageUrl == attachedImage)
    {
      if profile.None? {
        return None;
      }
      var image := if attachedImage.Some? && attachedImage.value != "" then attachedImage else None;
      published := Some(Post(IntToString(now), currentUser.name, currentUser.handle, draft, image,
                             Millis(now), profile.value, 0, 0, currentUser.avatarUrl, false));
    }
  }
}
