/** The two places a reader talks to an author's delegate: the post
    interaction modal (components/InteractionModal.tsx: a private chat and a
    public comment thread with automatic delegate replies) and the stand-alone
    chat modal (components/AiChatModal.tsx). Each asynchronous send is split
    at its `await`: the `Begin` method runs up to the delegate call and
    returns the request it makes, the `Finish` method runs with what the
    service answered. `now` stands for `Date.now()`. */
module DelegateChat {
  import opened Util
  import opened Types
  import opened Generation

  datatype Tab = Discuss | Chat

  const WelcomeTail := "'s AI Delegate. I've been briefed on the context of this post. Ask me anything about their intent, reasoning, or perspective."
  const IntroTail := "'s AI delegate. Ask me anything about this post or their perspective."

  /** The interaction modal's greeting. */
  function WelcomeText(authorName: string): string {
    "Hi, I'm " + authorName + WelcomeTail
  }

  /** The chat modal's greeting. */
  function IntroText(authorName: string): string {
    "Hey, I'm " + authorName + IntroTail
  }

  /** Both greetings name the post's author. */
  lemma GreetingsNameAuthor(authorName: string)
    ensures Includes(WelcomeText(authorName), authorName)
    ensures Includes(IntroText(authorName), authorName)
  {
    var w := WelcomeText(authorName);
    assert w[8..8 + |authorName|] == authorName;
    IncludesAt(w, authorName, 8);
    var t := IntroText(authorName);
    assert t[9..9 + |authorName|] == authorName;
    IncludesAt(t, authorName, 9);
  }

  /** Every message the reader typed into a chat is non-blank. */
  predicate ReaderMessagesNonBlank(messages: seq<Message>) {
    forall k :: 0 <= k < |messages| ==> messages[k].role == UserRole ==> !IsBlank(messages[k].content)
  }

  /** The delegate's public reply to the comment `commentId` on `post`. */
  function AiReplyComment(post: Post, commentId: string, text: string, now: int): (c: Comment)
    ensures c.isAiResponse == Some(true) && c.replyToId == Some(commentId)
    ensures c.author.name == post.authorName + " (AI Delegate)" && c.author.handle == post.authorHandle
    ensures c.author.avatarUrl == post.avatarUrl && c.content == text
  {
    Comment(IntToString(now + 1), BareUser(post.authorName + " (AI Delegate)", post.authorHandle, post.avatarUrl),
            text, Millis(now), None, Some(commentId)).(isAiResponse := Some(true))
  }

  /** A public comment waiting for its delegate reply: the post and the
      comment id the reply closure captured. */
  datatype PendingReply = PendingReply(post: Post, commentId: string)

  /** The interaction modal. `currentUser` is the fixed account public
      comments are posted as; the comment list starts from given comments. */
  class InteractionModal {
    var post: Option<Post>
    var activeTab: Tab
    var showContext: bool
    var messages: seq<Message>
    var input: string
    var isTyping: bool
    var comments: seq<Comment>
    var publicInput: string
    const currentUser: User

    /** With a post open the private chat starts with the delegate's
        welcome naming its author, and every reader message is non-blank. */
    ghost predicate Valid()
      reads this
    {
      && (post.Some? ==>
            |messages| >= 1 && messages[0].role == ModelRole
            && messages[0].content == WelcomeText(post.value.authorName))
      && ReaderMessagesNonBlank(messages)
    }

    constructor (post: Option<Post>, initialTab: Option<Tab>, showContextDefault: bool,
                 currentUser: User, initialComments: seq<Comment>, now: int)
      ensures Valid()
      ensures this.post == post && this.currentUser == currentUser && comments == initialComments
      ensures input == "" && publicInput == "" && !isTyping
      ensures activeTab == initialTab.GetOr(Discuss) && showContext == showContextDefault
      ensures post.Some? ==> messages == [Message("welcome", ModelRole, WelcomeText(post.value.authorName), now)]
      ensures post.None? ==> messages == []
    {
      this.post := post;
      activeTab := initialTab.GetOr(Discuss);
      showContext := showContextDefault;
      messages := [];
      input := "";
      isTyping := false;
      comments := initialComments;
      publicInput := "";
      this.currentUser := currentUser;
      if post.Some? {
        messages := [Message("welcome", ModelRole, WelcomeText(post.value.authorName), now)];
      }
    }

    /** New props: with a post, the chat resets to the single welcome
        message and the tab and context toggle follow the trigger. */
    method PropsChanged(newPost: Option<Post>, initialTab: Option<Tab>, showContextDefault: bool, now: int)
      requires Valid()
      modifies this
      ensures Valid()
      ensures post == newPost
      ensures newPost.Some? ==>
                && messages == [Message("welcome", ModelRole, WelcomeText(newPost.value.authorName), now)]
                && activeTab == initialTab.GetOr(Discuss) && showContext == showContextDefault
      ensures newPost.None? ==>
                messages == old(messages) && activeTab == old(activeTab) && showContext == old(showContext)
      ensures input == old(input) && isTyping == old(isTyping) && comments == old(comments)
      ensures publicInput == old(publicInput)
    {
      post := newPost;
      if newPost.Some? {
        messages := [Message("welcome", ModelRole, WelcomeText(newPost.value.authorName), now)];
        activeTab := initialTab.GetOr(Discuss);
        showContext := showContextDefault;
      }
    }

    method SetInput(text: string)
      requires Valid()
      modifies this
      ensures Valid() && input == text
      ensures post == old(post) && messages == old(messages) && isTyping == old(isTyping)
      ensures comments == old(comments) && publicInput == old(publicInput)
      ensures activeTab == old(activeTab) && showContext == old(showContext)
    {
      input := text;
    }

    method SetPublicInput(text: string)
      requires Valid()
      modifies this
      ensures Valid() && publicInput == text
      ensures post == old(post) && messages == old(messages) && isTyping == old(isTyping)
      ensures comments == old(comments) && input == old(input)
      ensures activeTab == old(activeTab) && showContext == old(showContext)
    {
      publicInput := text;
    }

    /** handleSendPrivate up to the delegate call: the request made, or
        nothing for a blank input or a missing post. The request carries the
        chat as it was before the reader's message was appended. */
    method BeginSendPrivate(now: int) returns (request: Option<DelegateRequest>)
      requires Valid()
      modifies this
      ensures Valid()
      ensures request.None? <==> IsBlank(old(input)) || old(post).None?
      ensures request.None? ==>
                messages == old(messages) && input == old(input) && isTyping == old(isTyping)
      ensures request.Some? ==>
                && post.Some?
                && request.value == DelegateRequestFor(post.value.content, post.value.contextProfile,
                                                       old(input), old(messages))
                && messages == old(messages) + [Message(IntToString(now), UserRole, old(input), now)]
                && input == "" && isTyping
      ensures post == old(post) && comments == old(comments) && publicInput == old(publicInput)
      ensures activeTab == old(activeTab) && showContext == old(showContext)
    {
      if IsBlank(input) || post.None? {
        return None;
      }
      var p := post.value;
      var userMessage := Message(IntToString(now), UserRole, input, now);
      var history := messages;
      messages := messages + [userMessage];
      input := "";
      isTyping := true;
      request := Some(DelegateRequestFor(p.content, p.contextProfile, userMessage.content, history));
    }

    /** handleSendPrivate after the delegate call: the service never
        rejects, so exactly one delegate message is appended and typing ends. */
    method FinishSendPrivate(reply: Fetched<string>, now: int)
      requires Valid()
      modifies this
      ensures Valid()
      ensures messages == old(messages) + [Message(IntToString(now + 1), ModelRole, DelegateReply(reply), now)]
      ensures !isTyping
      ensures post == old(post) && input == old(input) && comments == old(comments)
      ensures publicInput == old(publicInput) && activeTab == old(activeTab) && showContext == old(showContext)
    {
      var responseText := DelegateReply(reply);
      messages := messages + [Message(IntToString(now + 1), ModelRole, responseText, now)];
      isTyping := false;
    }

    /** handlePostComment up to the delegate call: the reader's comment is
        appended first; the delegate is asked with an empty history. */
    method BeginPostComment(now: int) returns (request: Option<DelegateRequest>, pending: Option<PendingReply>)
      requires Valid()
      modifies this
      ensures Valid()
      ensures request.None? <==> IsBlank(old(publicInput)) || old(post).None?
      ensures request.None? <==> pending.None?
      ensures request.None? ==>
                comments == old(comments) && publicInput == old(publicInput) && isTyping == old(isTyping)
      ensures request.Some? ==>
                var comment := Comment(IntToString(now), currentUser, old(publicInput), Millis(now), None, None);
                && post.Some?
                && comments == old(comments) + [comment]
                && publicInput == "" && isTyping
                && request.value == DelegateRequestFor(post.value.content, post.value.contextProfile,
                                                       old(publicInput), [])
                && request.value.chatHistory == []
                && pending == Some(PendingReply(post.value, comment.id))
      ensures post == old(post) && messages == old(messages) && input == old(input)
      ensures activeTab == old(activeTab) && showContext == old(showContext)
    {
      if IsBlank(publicInput) || post.None? {
        return None, None;
      }
      var p := post.value;
      var newComment := Comment(IntToString(now), currentUser, publicInput, Millis(now), None, None);
      comments := comments + [newComment];
      publicInput := "";
      isTyping := true;
      request := Some(DelegateRequestFor(p.content, p.contextProfile, newComment.content, []));
      pending := Some(PendingReply(p, newComment.id));
    }

    /** handlePostComment when its timer fires: the delegate's reply is
        appended as a comment replying to the reader's one, and typing ends. */
    method FinishPostComment(pending: PendingReply, reply: Fetched<string>, now: int)
      requires Valid()
      modifies this
      ensures Valid()
      ensures comments == old(comments) + [AiReplyComment(pending.post, pending.commentId, DelegateReply(reply), now)]
      ensures !isTyping
      ensures post == old(post) && messages == old(messages) && input == old(input)
      ensures publicInput == old(publicInput) && activeTab == old(activeTab) && showContext == old(showContext)
    {
      var responseText := DelegateReply(reply);
      comments := comments + [AiReplyComment(pending.post, pending.commentId, responseText, now)];
      isTyping := false;
    }
  }

  /** The public auto-reply prompt has no "Previous Chat" lines: the reader's
      comment directly follows the header. */
  lemma PublicReplyPromptHasNoHistory(post: Post, comment: string)
    ensures var req := DelegateRequestFor(post.content, post.contextProfile, comment, []);
            DelegateContents(HistoryText(req.chatHistory), req.userQuery)
              == ChatHeader + ReaderLead + comment + ChatTrailer
  {
    EmptyHistoryText();
  }

  /** The stand-alone delegate chat (components/AiChatModal.tsx). */
  class AiChatModal {
    var post: Post
    var messages: seq<Message>
    var input: string
    var isTyping: bool

    /** The chat starts with the delegate's introduction naming the author,
        and every reader message is non-blank. */
    ghost predicate Valid()
      reads this
    {
      && |messages| >= 1 && messages[0].role == ModelRole
      && messages[0].content == IntroText(post.authorName)
      && ReaderMessagesNonBlank(messages)
    }

    constructor (post: Post, now: int)
      ensures Valid()
      ensures this.post == post && messages == [Message("intro", ModelRole, IntroText(post.authorName), now)]
      ensures input == "" && !isTyping
    {
      this.post := post;
      messages := [Message("intro", ModelRole, IntroText(post.authorName), now)];
      input := "";
      isTyping := false;
    }

    /** A new `post` prop resets the chat to the single introduction. */
    method PostChanged(newPost: Post, now: int)
      requires Valid()
      modifies this
      ensures Valid()
      ensures post == newPost && messages == [Message("intro", ModelRole, IntroText(newPost.authorName), now)]
      ensures input == old(input) && isTyping == old(isTyping)
    {
      post := newPost;
      messages := [Message("intro", ModelRole, IntroText(newPost.authorName), now)];
    }

    method SetInput(text: string)
      requires Valid()
      modifies this
      ensures Valid() && input == text
      ensures post == old(post) && messages == old(messages) && isTyping == old(isTyping)
    {
      input := text;
    }

    /** handleSend up to the delegate call. It runs even while a reply is
        pending (the button is disabled only while typing, the Enter key
        not at all); only a blank input stops it. The access token is handed
        to the service as an extra argument the service does not take, so
        the request does not depend on it. */
    method BeginSend(accessToken: Option<string>, now: int) returns (request: Option<DelegateRequest>)
      requires Valid()
      modifies this
      ensures Valid()
      ensures request.None? <==> IsBlank(old(input))
      ensures request.None? ==> messages == old(messages) && input == old(input) && isTyping == old(isTyping)
      ensures request.Some? ==>
                && request.value == DelegateRequestFor(post.content, post.contextProfile, old(input), old(messages))
                && messages == old(messages) + [Message(IntToString(now), UserRole, old(input), now)]
                && input == "" && isTyping
      ensures post == old(post)
    {
      if IsBlank(input) {
        return None;
      }
      var userMessage := Message(IntToString(now), UserRole, input, now);
      var history := messages;
      messages := messages + [userMessage];
      input := "";
      isTyping := true;
      request := Some(DelegateRequestFor(post.content, post.contextProfile, userMessage.content, history));
    }

    /** handleSend after the delegate call: one delegate message, typing ends. */
    method FinishSend(reply: Fetched<string>, now: int)
      requires Valid()
      modifies this
      ensures Valid()
      ensures messages == old(messages) + [Message(IntToString(now + 1), ModelRole, DelegateReply(reply), now)]
      ensures !isTyping
      ensures post == old(post) && input == old(input)
    {
      var replyText := DelegateReply(reply);
      messages := messages + [Message(IntToString(now + 1), ModelRole, replyText, now)];
      isTyping := false;
    }
  }
}
