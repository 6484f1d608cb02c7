/** The chat-session store of `src/lib/chatHistory.ts`.

    The persisted array of sessions is the field `sessions` of a `ChatStore`;
    every mutating operation replaces it whole, as `writeAll` does. The clock
    (`Date.now`) and the id source (`crypto.randomUUID`) are parameters: each
    operation receives `now` and the fresh ids it would have drawn. */
module ChatHistory {
  import opened Wrappers
  import opened Text
  import Sorting

  datatype Role = User | Assistant

  datatype ChatMessage = ChatMessage(id: string, role: Role, content: string, createdAt: int)

  datatype SavedDocument = SavedDocument(id: string, title: string, createdAt: int)

  datatype Artifact = Artifact(id: string, title: string, createdAt: int)

  datatype ChatSession = ChatSession(
    id: string,
    title: string,
    createdAt: int,
    updatedAt: int,
    messages: seq<ChatMessage>,
    documents: seq<SavedDocument>,
    artifacts: seq<Artifact>)

  const NewChatTitle: string := "New chat"
  const UntitledDocument: string := "Untitled document"
  const DefaultArtifactTitle: string := "Artifact"
  const MaxTitleLength: nat := 48
  const Ellipsis: string := "\U{2026}"

  // ---------------------------------------------------------------------
  // Titles

  /** `text.trim().replace(/\s+/g, " ")`. */
  function NormalizeText(text: string): (r: string)
    ensures r == "" <==> IsBlank(text)
    ensures r != [] ==> !IsWhitespace(r[0]) && !IsWhitespace(r[|r| - 1])
  {
    Collapse(Trim(text))
  }

  /** `deriveTitleFromText`: the normalized text, cut to 48 characters and
      marked with an ellipsis when longer; "New chat" for blank text. */
  function DeriveTitleFromText(text: string): (r: string)
    ensures IsBlank(text) ==> r == NewChatTitle
    ensures |r| <= MaxTitleLength + 1
    ensures !IsBlank(text) && |NormalizeText(text)| <= MaxTitleLength ==> r == NormalizeText(text)
    ensures !IsBlank(text) && |NormalizeText(text)| > MaxTitleLength
            ==> |r| == MaxTitleLength + 1 && r[..MaxTitleLength] == NormalizeText(text)[..MaxTitleLength]
                && r[MaxTitleLength..] == Ellipsis
  {
    var trimmed := NormalizeText(text);
    if trimmed == "" then NewChatTitle
    else if |trimmed| > MaxTitleLength then trimmed[..MaxTitleLength] + Ellipsis
    else trimmed
  }

  lemma NonWhitespaceOfConcat(a: string, b: string)
    ensures NonWhitespace(a + b) == NonWhitespace(a) + NonWhitespace(b)
  {
    if a != [] {
      var h := if IsWhitespace(a[0]) then "" else [a[0]];
      assert (a + b)[0] == a[0];
      assert (a + b)[1..] == a[1..] + b;
      assert NonWhitespace(a + b) == h + NonWhitespace(a[1..] + b);
      NonWhitespaceOfConcat(a[1..], b);
    } else {
      assert a + b == b;
    }
  }

  lemma NonWhitespaceOfBlank(s: string)
    requires AllWhitespace(s)
    ensures NonWhitespace(s) == ""
  {
    if s != [] {
      NonWhitespaceOfBlank(s[1..]);
    }
  }

  /** Whitespace around a text adds no characters to keep. */
  lemma NonWhitespaceOfFramed(before: string, t: string, after: string)
    requires AllWhitespace(before) && AllWhitespace(after)
    ensures NonWhitespace(before + t + after) == NonWhitespace(t)
  {
    NonWhitespaceOfConcat(before + t, after);
    NonWhitespaceOfConcat(before, t);
    NonWhitespaceOfBlank(before);
    NonWhitespaceOfBlank(after);
    assert NonWhitespace(before + t) == NonWhitespace(t);
  }

  /** Normalizing drops whitespace only: every other character of the text
      survives, in order. */
  lemma {:induction false} NormalizeKeepsText(text: string)
    ensures NonWhitespace(NormalizeText(text)) == NonWhitespace(text)
  {
    TrimKeepsText(text);
    CollapseKeepsText(Trim(text));
  }

  /** Trimming drops whitespace only. */
  lemma TrimKeepsText(text: string)
    ensures NonWhitespace(Trim(text)) == NonWhitespace(text)
  {
    FramedKeepsText(text, |text| - |TrimStart(text)|, Trim(text));
  }

  /** A slice with only whitespace around it keeps all of the text. */
  lemma FramedKeepsText(s: string, k: int, t: string)
    requires Framed(s, k, t)
    ensures NonWhitespace(t) == NonWhitespace(s)
  {
    var before, after := s[..k], s[k + |t|..];
    assert s == before + t + after by { SplitInThree(s, k, |t|); }
    NonWhitespaceOfFramed(before, t, after);
  }

  lemma SplitInThree(s: string, k: nat, n: nat)
    requires k + n <= |s|
    ensures s == s[..k] + s[k..k + n] + s[k + n..]
  {
  }

  /** "New chat" is a normalized title with no whitespace at its ends. */
  lemma NewChatTitleShape()
    ensures Normalized(NewChatTitle)
    ensures !IsWhitespace(NewChatTitle[0]) && !IsWhitespace(NewChatTitle[|NewChatTitle| - 1])
  {
    assert NewChatTitle[3] == ' ';
    assert forall i :: 0 <= i < |NewChatTitle| && i != 3 ==> 'C' <= NewChatTitle[i] <= 'w';
  }

  /** Cutting a normalized text and marking the cut keeps it normalized. */
  lemma {:induction false} TruncatedShape(n: string)
    requires Normalized(n) && |n| > MaxTitleLength && !IsWhitespace(n[0])
    ensures var r := n[..MaxTitleLength] + Ellipsis;
            Normalized(r) && !IsWhitespace(r[0]) && !IsWhitespace(r[|r| - 1])
  {
    var r := n[..MaxTitleLength] + Ellipsis;
    assert r[|r| - 1] == '\U{2026}';
    forall i | 0 <= i < |r| ensures IsWhitespace(r[i]) ==> r[i] == ' ' {
      if i < MaxTitleLength { assert r[i] == n[i]; }
    }
    forall i | 0 <= i < |r| - 1 ensures !(IsWhitespace(r[i]) && IsWhitespace(r[i + 1])) {
      if i + 1 < MaxTitleLength { assert r[i] == n[i] && r[i + 1] == n[i + 1]; }
    }
  }

  /** The shape of a derived title: never empty, at most 49 characters, no
      whitespace at either end and only single spaces inside. */
  lemma {:induction false} DerivedTitleShape(text: string)
    ensures var r := DeriveTitleFromText(text);
            r != [] && |r| <= MaxTitleLength + 1 && Normalized(r)
            && !IsWhitespace(r[0]) && !IsWhitespace(r[|r| - 1])
  {
    var r := DeriveTitleFromText(text);
    var n := NormalizeText(text);
    if IsBlank(text) {
      assert r == NewChatTitle;
      NewChatTitleShape();
    } else {
      assert Normalized(n) && n != [] by {
        CollapseNormalizes(Trim(text));
      }
      if |n| > MaxTitleLength {
        assert r == n[..MaxTitleLength] + Ellipsis;
        TruncatedShape(n);
      } else {
        assert r == n;
      }
    }
  }

  /** A title derived from text that fits is exactly the text's
      non-whitespace characters, single-spaced. */
  lemma DerivedTitleKeepsText(text: string)
    requires !IsBlank(text) && |NormalizeText(text)| <= MaxTitleLength
    ensures NonWhitespace(DeriveTitleFromText(text)) == NonWhitespace(text)
  {
    NormalizeKeepsText(text);
  }

  /** Deriving a title from a derived title gives it back. */
  lemma {:induction false} DeriveTitleIdempotent(text: string)
    ensures DeriveTitleFromText(DeriveTitleFromText(text)) == DeriveTitleFromText(text)
  {
    var r := DeriveTitleFromText(text);
    DerivedTitleShape(text);
    TrimOfTrimmed(r);
    CollapseOfNormalized(r);
    assert NormalizeText(r) == r;
    if |r| > MaxTitleLength {
      assert r[..MaxTitleLength] + Ellipsis == r;
    }
  }

  /** The title rule of `appendMessage`: a title that is non-blank and not
      "New chat" is kept; otherwise a user message renames the session
      after its own text and an assistant message leaves the title alone. */
  function NextTitle(current: string, role: Role, content: string): (r: string)
    ensures !IsBlank(current) && current != NewChatTitle ==> r == current
    ensures (IsBlank(current) || current == NewChatTitle) && role == User ==> r == DeriveTitleFromText(content)
    ensures role == Assistant ==> r == current
  {
    if !IsBlank(current) && current != NewChatTitle then current
    else if role == User then DeriveTitleFromText(content)
    else current
  }

  /** A title that is neither blank nor "New chat". */
  predicate IsCustomTitle(title: string) {
    !IsBlank(title) && title != NewChatTitle
  }

  /** Titles over a whole conversation: each message applies the title rule
      in turn. */
  function TitleAfter(title: string, messages: seq<(Role, string)>): string
    decreases |messages|
  {
    if messages == [] then title
    else TitleAfter(NextTitle(title, messages[0].0, messages[0].1), messages[1..])
  }

  /** A custom title survives every later conversation unchanged. */
  lemma {:induction false} CustomTitleIsFinal(title: string, messages: seq<(Role, string)>)
    requires IsCustomTitle(title)
    ensures TitleAfter(title, messages) == title
  {
    if messages != [] {
      CustomTitleIsFinal(NextTitle(title, messages[0].0, messages[0].1), messages[1..]);
    }
  }

  /** Assistant messages never change the title, whatever it is. */
  lemma {:induction false} AssistantsKeepTitle(title: string, pre: seq<(Role, string)>, tail: seq<(Role, string)>)
    requires forall i :: 0 <= i < |pre| ==> pre[i].0 == Assistant
    ensures TitleAfter(title, pre + tail) == TitleAfter(title, tail)
  {
    if pre != [] {
      var m := pre + tail;
      assert m[0] == pre[0] && m[1..] == pre[1..] + tail;
      assert NextTitle(title, m[0].0, m[0].1) == title;
      assert TitleAfter(title, m) == TitleAfter(title, pre[1..] + tail);
      AssistantsKeepTitle(title, pre[1..], tail);
    } else {
      assert pre + tail == tail;
    }
  }

  /** On a chat still called "New chat" (or with a blank title), assistant
      messages leave the title in place, the first user message names the
      session, and from then on the title is fixed unless that message's
      text derives to "New chat" itself. */
  lemma {:induction false} FirstUserMessageNamesChat(
    title: string, pre: seq<(Role, string)>, content: string, rest: seq<(Role, string)>)
    requires IsBlank(title) || title == NewChatTitle
    requires forall i :: 0 <= i < |pre| ==> pre[i].0 == Assistant
    requires DeriveTitleFromText(content) != NewChatTitle
    ensures TitleAfter(title, pre) == title
    ensures TitleAfter(title, pre + [(User, content)] + rest) == DeriveTitleFromText(content)
  {
    assert TitleAfter(title, pre) == title by {
      AssistantsKeepTitle(title, pre, []);
      assert pre + [] == pre;
    }
    var tail := [(User, content)] + rest;
    assert TitleAfter(title, pre + [(User, content)] + rest) == TitleAfter(title, tail) by {
      AppendAssociates(pre, [(User, content)], rest);
      AssistantsKeepTitle(title, pre, tail);
    }
    UserMessageNamesChat(title, content, rest);
  }

  lemma AppendAssociates<T>(a: seq<T>, b: seq<T>, c: seq<T>)
    ensures a + b + c == a + (b + c)
  {
  }

  /** The user message that reaches an unnamed chat names it for good. */
  lemma UserMessageNamesChat(title: string, content: string, rest: seq<(Role, string)>)
    requires IsBlank(title) || title == NewChatTitle
    requires DeriveTitleFromText(content) != NewChatTitle
    ensures TitleAfter(title, [(User, content)] + rest) == DeriveTitleFromText(content)
  {
    var t := DeriveTitleFromText(content);
    assert IsCustomTitle(t) by {
      DerivedTitleShape(content);
      BlankIffAllWhitespace(t);
    }
    var m := [(User, content)] + rest;
    assert m[0] == (User, content) && m[1..] == rest;
    assert NextTitle(title, User, content) == t;
    CustomTitleIsFinal(t, rest);
  }

  // ---------------------------------------------------------------------
  // One session

  /** The session `createChatFromPrompt` builds. */
  function PromptSession(prompt: string, now: int, sessionId: string, messageId: string): (s: ChatSession)
    ensures s.id == sessionId && s.createdAt == now && s.updatedAt == now
    ensures s.title == DeriveTitleFromText(prompt)
    ensures s.documents == [] && s.artifacts == []
    ensures IsBlank(prompt) ==> s.messages == []
    ensures !IsBlank(prompt) ==> s.messages == [ChatMessage(messageId, User, prompt, now)]
  {
    ChatSession(sessionId, DeriveTitleFromText(prompt), now, now,
                if !IsBlank(prompt) then [ChatMessage(messageId, User, prompt, now)] else [],
                [], [])
  }

  /** The session `createEmptyChat` builds. */
  function EmptySession(now: int, sessionId: string): (s: ChatSession)
    ensures s.id == sessionId && s.title == NewChatTitle
    ensures s.createdAt == now && s.updatedAt == now
    ensures s.messages == [] && s.documents == [] && s.artifacts == []
  {
    ChatSession(sessionId, NewChatTitle, now, now, [], [], [])
  }

  /** A blank prompt creates the same session as an empty chat; the message
      id drawn for it goes unused. */
  lemma BlankPromptIsEmptyChat(prompt: string, now: int, sessionId: string, messageId: string)
    requires IsBlank(prompt)
    ensures PromptSession(prompt, now, sessionId, messageId) == EmptySession(now, sessionId)
  {
  }

  /** The `.map` callback of `appendMessage` on the matching session. */
  function WithMessage(s: ChatSession, role: Role, content: string, now: int, messageId: string): (r: ChatSession)
    ensures r.messages == s.messages + [ChatMessage(messageId, role, content, now)]
    ensures r.title == NextTitle(s.title, role, content) && r.updatedAt == now
    ensures r.id == s.id && r.createdAt == s.createdAt
    ensures r.documents == s.documents && r.artifacts == s.artifacts
  {
    s.(title := NextTitle(s.title, role, content), updatedAt := now,
       messages := s.messages + [ChatMessage(messageId, role, content, now)])
  }

  /** `title.trim() || "Untitled document"`. */
  function DocumentTitle(title: string): (r: string)
    ensures !IsBlank(r)
  {
    if IsBlank(title) then
      assert Trim(UntitledDocument) == UntitledDocument by { TrimOfTrimmed(UntitledDocument); }
      UntitledDocument
    else
      TrimmedStaysNonBlank(title);
      Trim(title)
  }

  lemma TrimmedStaysNonBlank(s: string)
    requires !IsBlank(s)
    ensures !IsBlank(Trim(s))
  {
    TrimOfTrimmed(Trim(s));
  }

  /** The `.map` callback of `addDocument` on the matching session. */
  function WithDocument(s: ChatSession, title: string, now: int, documentId: string): (r: ChatSession)
    ensures r.documents == s.documents + [SavedDocument(documentId, DocumentTitle(title), now)]
    ensures r.updatedAt == now
    ensures r.id == s.id && r.title == s.title && r.createdAt == s.createdAt
    ensures r.messages == s.messages && r.artifacts == s.artifacts
  {
    s.(updatedAt := now, documents := s.documents + [SavedDocument(documentId, DocumentTitle(title), now)])
  }

  lemma DefaultArtifactTitleNotBlank(t: string)
    requires t == DefaultArtifactTitle
    ensures !IsBlank(t)
  {
    TrimOfTrimmed(t);
  }

  /** `title.trim() || "Artifact"`. */
  function ArtifactTitle(title: string): (r: string)
    ensures !IsBlank(r)
  {
    if IsBlank(title) then
      DefaultArtifactTitleNotBlank(DefaultArtifactTitle);
      DefaultArtifactTitle
    else
      TrimmedStaysNonBlank(title);
      Trim(title)
  }

  /** Some artifact of `artifacts` has `title`, ignoring letter case. */
  predicate HasArtifactTitled(artifacts: seq<Artifact>, title: string) {
    exists i :: 0 <= i < |artifacts| && Lower(artifacts[i].title) == Lower(title)
  }

  /** No two artifacts have the same title, ignoring letter case. */
  predicate ArtifactTitlesDistinct(artifacts: seq<Artifact>) {
    forall i, j :: 0 <= i < j < |artifacts| ==> Lower(artifacts[i].title) != Lower(artifacts[j].title)
  }

  /** The `.map` callback of `addArtifact` on the matching session: nothing
      changes, not even `updatedAt`, when the title is already there. */
  function WithArtifact(s: ChatSession, title: string, now: int, artifactId: string): (r: ChatSession)
    ensures HasArtifactTitled(s.artifacts, ArtifactTitle(title)) ==> r == s
    ensures !HasArtifactTitled(s.artifacts, ArtifactTitle(title)) ==>
              r == s.(updatedAt := now, artifacts := s.artifacts + [Artifact(artifactId, ArtifactTitle(title), now)])
  {
    var clean := ArtifactTitle(title);
    if HasArtifactTitled(s.artifacts, clean) then s
    else s.(updatedAt := now, artifacts := s.artifacts + [Artifact(artifactId, clean, now)])
  }

  /** After `addArtifact` the title is always present. */
  lemma ArtifactPresentAfterAdd(s: ChatSession, title: string, now: int, artifactId: string)
    ensures HasArtifactTitled(WithArtifact(s, title, now, artifactId).artifacts, ArtifactTitle(title))
  {
    var r := WithArtifact(s, title, now, artifactId);
    if !HasArtifactTitled(s.artifacts, ArtifactTitle(title)) {
      assert r.artifacts[|r.artifacts| - 1].title == ArtifactTitle(title);
    }
  }

  /** `addArtifact` is idempotent: repeating it, at any later time and with
      any fresh id, changes nothing. */
  lemma ArtifactIdempotent(s: ChatSession, title: string, now: int, artifactId: string,
                           later: int, laterId: string)
    ensures var once := WithArtifact(s, title, now, artifactId);
            WithArtifact(once, title, later, laterId) == once
  {
    ArtifactPresentAfterAdd(s, title, now, artifactId);
  }

  /** `addArtifact` keeps artifact titles distinct, ignoring case. */
  lemma ArtifactTitlesStayDistinct(s: ChatSession, title: string, now: int, artifactId: string)
    requires ArtifactTitlesDistinct(s.artifacts)
    ensures ArtifactTitlesDistinct(WithArtifact(s, title, now, artifactId).artifacts)
  {
    var clean := ArtifactTitle(title);
    if !HasArtifactTitled(s.artifacts, clean) {
      AppendNewTitle(s.artifacts, Artifact(artifactId, clean, now));
    }
  }

  lemma AppendNewTitle(artifacts: seq<Artifact>, a: Artifact)
    requires ArtifactTitlesDistinct(artifacts) && !HasArtifactTitled(artifacts, a.title)
    ensures ArtifactTitlesDistinct(artifacts + [a])
  {
    var r := artifacts + [a];
    forall i, j | 0 <= i < j < |r| ensures Lower(r[i].title) != Lower(r[j].title) {
      assert r[i] == artifacts[i];
      if j < |artifacts| { assert r[j] == artifacts[j]; }
    }
  }

  /** Adding an artifact keeps every artifact title already present. */
  lemma ArtifactTitlesKept(s: ChatSession, title: string, other: string, now: int, artifactId: string)
    requires HasArtifactTitled(s.artifacts, other)
    ensures HasArtifactTitled(WithArtifact(s, title, now, artifactId).artifacts, other)
  {
    var r := WithArtifact(s, title, now, artifactId);
    var i :| 0 <= i < |s.artifacts| && Lower(s.artifacts[i].title) == Lower(other);
    assert i < |r.artifacts| && r.artifacts[i] == s.artifacts[i] by {
      var clean := ArtifactTitle(title);
      if !HasArtifactTitled(s.artifacts, clean) {
        assert r.artifacts == s.artifacts + [Artifact(artifactId, clean, now)];
      }
    }
  }

  // ---------------------------------------------------------------------
  // The collection

  /** Every session of `sessions` has its own id. */
  predicate UniqueIds(sessions: seq<ChatSession>) {
    forall i, j :: 0 <= i < j < |sessions| ==> sessions[i].id != sessions[j].id
  }

  predicate HasId(sessions: seq<ChatSession>, id: string) {
    exists i :: 0 <= i < |sessions| && sessions[i].id == id
  }

  /** `getChat`: the first session with the id, or nothing. */
  function GetChat(sessions: seq<ChatSession>, chatId: string): (r: Option<ChatSession>)
    ensures r.Some? <==> HasId(sessions, chatId)
    ensures r.Some? ==> exists i :: 0 <= i < |sessions| && sessions[i] == r.value && r.value.id == chatId
                                    && forall j :: 0 <= j < i ==> sessions[j].id != chatId
  {
    if sessions == [] then None
    else if sessions[0].id == chatId then Some(sessions[0])
    else
      var r := GetChat(sessions[1..], chatId);
      assert HasId(sessions, chatId) ==> HasId(sessions[1..], chatId) by {
        if HasId(sessions, chatId) {
          var i :| 0 <= i < |sessions| && sessions[i].id == chatId;
          assert sessions[1..][i - 1] == sessions[i];
        }
      }
      assert r.Some? ==> exists i :: 0 <= i < |sessions| && sessions[i] == r.value && r.value.id == chatId
                                    && forall j :: 0 <= j < i ==> sessions[j].id != chatId by {
        if r.Some? {
          var i :| 0 <= i < |sessions[1..]| && sessions[1..][i] == r.value
                   && forall j :: 0 <= j < i ==> sessions[1..][j].id != chatId;
          assert sessions[i + 1] == r.value;
          forall j | 0 <= j < i + 1 ensures sessions[j].id != chatId {
            if j > 0 { assert sessions[j] == sessions[1..][j - 1]; }
          }
        }
      }
      r
  }

  /** With distinct ids, `getChat` finds the session at any index. */
  lemma GetChatAt(sessions: seq<ChatSession>, i: nat)
    requires UniqueIds(sessions) && i < |sessions|
    ensures GetChat(sessions, sessions[i].id) == Some(sessions[i])
  {
  }

  /** A session put in front of the collection is the one found by its
      id, and keeps the ids distinct when its id was new. */
  lemma Prepended(session: ChatSession, sessions: seq<ChatSession>)
    ensures GetChat([session] + sessions, session.id) == Some(session)
    ensures UniqueIds(sessions) && !HasId(sessions, session.id) ==> UniqueIds([session] + sessions)
  {
    var r := [session] + sessions;
    if UniqueIds(sessions) && !HasId(sessions, session.id) {
      forall i, j | 0 <= i < j < |r| ensures r[i].id != r[j].id {
        assert r[j] == sessions[j - 1];
        if i > 0 { assert r[i] == sessions[i - 1]; }
      }
    }
  }

  /** `listChats` orders by `(a, b) => b.updatedAt - a.updatedAt`: `a` may
      stay before `b` when it was updated no earlier. */
  function NewerFirst(): (ChatSession, ChatSession) -> bool
  {
    (a: ChatSession, b: ChatSession) => a.updatedAt >= b.updatedAt
  }

  lemma NewerFirstIsPreorder()
    ensures Sorting.TotalPreorder(NewerFirst())
  {
    var le := NewerFirst();
    forall a, b, c | Sorting.Chain(le, a, b, c) ensures le(a, c) {
    }
  }

  /** `listChats`: all sessions, most recently updated first; sessions
      updated at the same time keep their stored order. */
  function ListChats(sessions: seq<ChatSession>): (r: seq<ChatSession>)
    ensures multiset(r) == multiset(sessions)
    ensures forall i, j :: 0 <= i < j < |r| ==> r[i].updatedAt >= r[j].updatedAt
    ensures forall k :: Sorting.Tied(r, k, NewerFirst()) == Sorting.Tied(sessions, k, NewerFirst())
  {
    NewerFirstIsPreorder();
    Sorting.SortBySorted(sessions, NewerFirst());
    forall k ensures Sorting.Tied(Sorting.SortBy(sessions, NewerFirst()), k, NewerFirst())
                     == Sorting.Tied(sessions, k, NewerFirst()) {
      Sorting.SortByStable(sessions, k, NewerFirst());
    }
    Sorting.SortBy(sessions, NewerFirst())
  }

  /** The `.map` over sessions that every update performs: the sessions
      with the id are replaced by `f` of themselves, the rest are kept. */
  function UpdateWhere(sessions: seq<ChatSession>, chatId: string, f: ChatSession -> ChatSession): (r: seq<ChatSession>)
    ensures |r| == |sessions|
    ensures forall i :: 0 <= i < |sessions| ==>
              r[i] == if sessions[i].id == chatId then f(sessions[i]) else sessions[i]
  {
    seq(|sessions|, i requires 0 <= i < |sessions| =>
      if sessions[i].id == chatId then f(sessions[i]) else sessions[i])
  }

  /** The collection after `addArtifact(chatId, title, ...)`. */
  function ArtifactAdded(sessions: seq<ChatSession>, chatId: string, title: string, now: int, artifactId: string): (r: seq<ChatSession>)
    ensures |r| == |sessions|
    ensures forall i :: 0 <= i < |sessions| ==>
              r[i] == if sessions[i].id == chatId then WithArtifact(sessions[i], title, now, artifactId) else sessions[i]
  {
    UpdateWhere(sessions, chatId, s => WithArtifact(s, title, now, artifactId))
  }

  /** An update addressed to an unknown id writes back the same collection. */
  lemma UpdateUnknownIsNoOp(sessions: seq<ChatSession>, chatId: string, f: ChatSession -> ChatSession)
    requires !HasId(sessions, chatId)
    ensures UpdateWhere(sessions, chatId, f) == sessions
  {
  }

  /** Reading back after an update gives the updated session, as long as the
      update keeps ids: the write/read round trip. */
  lemma GetChatAfterUpdate(sessions: seq<ChatSession>, chatId: string, f: ChatSession -> ChatSession)
    requires forall s :: f(s).id == s.id
    ensures GetChat(UpdateWhere(sessions, chatId, f), chatId)
            == if HasId(sessions, chatId) then Some(f(GetChat(sessions, chatId).value)) else None
  {
    var r := UpdateWhere(sessions, chatId, f);
    if HasId(sessions, chatId) {
      var g := GetChat(r, chatId);
      var i :| 0 <= i < |r| && r[i] == g.value && g.value.id == chatId
               && forall j :: 0 <= j < i ==> r[j].id != chatId;
      var i0 :| 0 <= i0 < |sessions| && sessions[i0] == GetChat(sessions, chatId).value
                && sessions[i0].id == chatId && forall j :: 0 <= j < i0 ==> sessions[j].id != chatId;
      assert r[i0].id == chatId;
      assert i == i0;
    } else {
      assert !HasId(r, chatId);
    }
  }

  // ---------------------------------------------------------------------
  // Storage backend (readAll / writeAll)

  /** What `localStorage.getItem("shine.chatHistory.v1")` holds. */
  datatype Stored =
    | NoEntry                        // missing or empty string
    | Unparseable                    // JSON.parse throws
    | NotAnArray                     // parses to something else
    | Entry(list: seq<ChatSession>)  // a JSON array

  /** The storage environment and the module-level `memoryFallback`.
      `getItemThrows`/`setItemThrows` stand for a storage that refuses access
      or is over quota. */
  datatype Backend = Backend(
    hasWindow: bool,
    getItemThrows: bool,
    setItemThrows: bool,
    stored: Stored,
    memoryFallback: seq<ChatSession>)

  /** `readAll`. A parse failure yields `memoryFallback`; a missing entry or
      a value that is not an array yields the empty collection. */
  function ReadAll(b: Backend): (r: seq<ChatSession>)
    ensures !b.hasWindow || b.getItemThrows ==> r == b.memoryFallback
    ensures b.hasWindow && !b.getItemThrows ==>
              r == match b.stored
                   case NoEntry => []
                   case Unparseable => b.memoryFallback
                   case NotAnArray => []
                   case Entry(list) => list
  {
    if !b.hasWindow || b.getItemThrows then b.memoryFallback
    else match b.stored
      case NoEntry => []
      case Unparseable => b.memoryFallback
      case NotAnArray => []
      case Entry(list) => list
  }

  /** `writeAll`. A failed `setItem` only assigns `memoryFallback`. */
  function WriteAll(b: Backend, sessions: seq<ChatSession>): (r: Backend)
    ensures r.hasWindow == b.hasWindow && r.getItemThrows == b.getItemThrows && r.setItemThrows == b.setItemThrows
    ensures !b.hasWindow || b.setItemThrows ==> r == b.(memoryFallback := sessions)
    ensures b.hasWindow && !b.setItemThrows ==> r == b.(stored := Entry(sessions))
  {
    if !b.hasWindow || b.setItemThrows then b.(memoryFallback := sessions)
    else b.(stored := Entry(sessions))
  }

  /** Where storage works, or where there is no window at all, what is
      written is what is read back. */
  lemma WriteThenReadWhenStorageWorks(b: Backend, sessions: seq<ChatSession>)
    requires !b.hasWindow || (!b.getItemThrows && !b.setItemThrows)
    ensures ReadAll(WriteAll(b, sessions)) == sessions
  {
  }

  /** When `setItem` fails but `getItem` works (a full quota), the write
      goes to `memoryFallback`, which `readAll` never consults on that path:
      the next read returns the old stored collection and the update is lost. */
  lemma FailedWriteIsLost(s: ChatSession)
    ensures var b := Backend(true, false, true, Entry([]), []);
            ReadAll(WriteAll(b, [s])) == [] != [s]
  {
  }

  /** The backend as evidently intended: once a write has failed, reads
      come from the in-memory collection for the rest of the page session. */
  datatype FallbackBackend = FallbackBackend(base: Backend, degraded: bool)

  function ReadAllFallback(b: FallbackBackend): (r: seq<ChatSession>)
    ensures b.degraded ==> r == b.base.memoryFallback
    ensures !b.degraded ==> r == ReadAll(b.base)
  {
    if b.degraded then b.base.memoryFallback else ReadAll(b.base)
  }

  /** Every write also lands in `memoryFallback`; a failed `setItem`
      switches reads over to it. */
  function WriteAllFallback(b: FallbackBackend, sessions: seq<ChatSession>): (r: FallbackBackend)
    ensures r.base.stored == WriteAll(b.base, sessions).stored
    ensures r.base.memoryFallback == sessions
    ensures r.degraded == (b.degraded || (b.base.hasWindow && b.base.setItemThrows))
  {
    FallbackBackend(WriteAll(b.base, sessions).(memoryFallback := sessions),
                    b.degraded || (b.base.hasWindow && b.base.setItemThrows))
  }

  /** Every write is read back, whatever the storage does. */
  lemma FallbackRoundTrip(b: FallbackBackend, sessions: seq<ChatSession>)
    ensures ReadAllFallback(WriteAllFallback(b, sessions)) == sessions
  {
  }

  // ---------------------------------------------------------------------
  // The store

  /** The persisted collection. Reading it is `readAll`; assigning it is a
      `writeAll` that every later read observes. */
  class ChatStore {
    var sessions: seq<ChatSession>

    constructor(initial: seq<ChatSession>)
      ensures sessions == initial
    {
      sessions := initial;
    }

    /** `createChatFromPrompt`: the new session goes in front; the others
        follow unchanged and in order. */
    method CreateChatFromPrompt(prompt: string, now: int, sessionId: string, messageId: string)
      returns (id: string)
      modifies this
      ensures id == sessionId
      ensures sessions == [PromptSession(prompt, now, sessionId, messageId)] + old(sessions)
      ensures UniqueIds(old(sessions)) && !HasId(old(sessions), sessionId) ==> UniqueIds(sessions)
      ensures GetChat(sessions, id) == Some(PromptSession(prompt, now, sessionId, messageId))
    {
      var session := PromptSession(prompt, now, sessionId, messageId);
      Prepended(session, sessions);
      sessions := [session] + sessions;
      id := sessionId;
    }

    /** `createEmptyChat`. */
    method CreateEmptyChat(now: int, sessionId: string) returns (id: string)
      modifies this
      ensures id == sessionId
      ensures sessions == [EmptySession(now, sessionId)] + old(sessions)
      ensures UniqueIds(old(sessions)) && !HasId(old(sessions), sessionId) ==> UniqueIds(sessions)
      ensures GetChat(sessions, id) == Some(EmptySession(now, sessionId))
    {
      Prepended(EmptySession(now, sessionId), sessions);
      sessions := [EmptySession(now, sessionId)] + sessions;
      id := sessionId;
    }

    /** `appendMessage`: exactly the sessions with the id gain the message. */
    method AppendMessage(chatId: string, role: Role, content: string, now: int, messageId: string)
      modifies this
      ensures |sessions| == |old(sessions)|
      ensures forall i :: 0 <= i < |sessions| ==>
                sessions[i] == if old(sessions)[i].id == chatId
                               then WithMessage(old(sessions)[i], role, content, now, messageId)
                               else old(sessions)[i]
      ensures !HasId(old(sessions), chatId) ==> sessions == old(sessions)
      ensures UniqueIds(old(sessions)) ==> UniqueIds(sessions)
    {
      sessions := UpdateWhere(sessions, chatId, s => WithMessage(s, role, content, now, messageId));
    }

    /** `addDocument`: always appends, never deduplicates. */
    method AddDocument(chatId: string, title: string, now: int, documentId: string)
      modifies this
      ensures |sessions| == |old(sessions)|
      ensures forall i :: 0 <= i < |sessions| ==>
                sessions[i] == if old(sessions)[i].id == chatId
                               then WithDocument(old(sessions)[i], title, now, documentId)
                               else old(sessions)[i]
      ensures !HasId(old(sessions), chatId) ==> sessions == old(sessions)
      ensures UniqueIds(old(sessions)) ==> UniqueIds(sessions)
    {
      sessions := UpdateWhere(sessions, chatId, s => WithDocument(s, title, now, documentId));
    }

    /** `addArtifact`: appends unless the title is already there. */
    method AddArtifact(chatId: string, title: string, now: int, artifactId: string)
      modifies this
      ensures sessions == ArtifactAdded(old(sessions), chatId, title, now, artifactId)
      ensures !HasId(old(sessions), chatId) ==> sessions == old(sessions)
      ensures UniqueIds(old(sessions)) ==> UniqueIds(sessions)
    {
      sessions := ArtifactAdded(sessions, chatId, title, now, artifactId);
    }
  }
}
