/** The intent router and right-panel state of `src/pages/ChatWorkspace.tsx`.

    Seven boolean state variables decide which analysis panel is shown. A
    typed chat message selects exactly one of them by keyword, in a fixed
    priority order; the chat's seed text sets each independently; the render
    picks the first one set in a second, different order. */
module ChatWorkspace {
  import opened Wrappers
  import opened Text
  import opened ChatHistory

  /** The seven panels, one per keyword list. */
  datatype Panel =
    | AgentGrid
    | RentAnalyticsV2
    | RentAnalytics
    | GenerateListing
    | PropertyListing
    | PropertyValuation
    | Undervalued

  /** The lower-case keyword lists. */
  function Keywords(p: Panel): (r: seq<string>)
    ensures r != []
  {
    match p
    case PropertyListing => ["find property", "find properties"]
    case PropertyValuation => ["valuation", "valuate", "estimation", "estimate"]
    case Undervalued => ["undervalued"]
    case GenerateListing => ["generate listing", "create listing", "new listing"]
    case RentAnalytics => ["avg rent", "rent miami", "average rent"]
    case RentAnalyticsV2 => ["rental analytics"]
    case AgentGrid => ["find agent", "find agents", "real estate agent"]
  }

  /** The artifact title each shown panel records in its chat. */
  function ArtifactName(p: Panel): (r: string)
    ensures r != [] && !IsWhitespace(r[0]) && !IsWhitespace(r[|r| - 1])
  {
    match p
    case AgentGrid => "Agent Grid"
    case RentAnalyticsV2 => "Rent Analytics"
    case RentAnalytics => "Avg Rent"
    case GenerateListing => "Generate Listing"
    case Undervalued => "Undervalued Properties"
    case PropertyValuation => "Property Valuation"
    case PropertyListing => "Property Listing"
  }

  /** The fixed artifact titles are stored as they are: `addArtifact`'s
      cleaning leaves them unchanged. */
  lemma ArtifactNamesAreClean(p: Panel)
    ensures ArtifactTitle(ArtifactName(p)) == ArtifactName(p)
  {
    TrimOfTrimmed(ArtifactName(p));
    BlankIffAllWhitespace(ArtifactName(p));
  }

  /** `KEYWORDS.some((kw) => message.toLowerCase().includes(kw))`. */
  function Mentions(message: string, p: Panel): bool
  {
    ContainsAny(Lower(message), Keywords(p))
  }

  /** `handleChatMessage`'s priority order. */
  const RoutingOrder: seq<Panel> :=
    [AgentGrid, RentAnalyticsV2, RentAnalytics, GenerateListing, PropertyListing, PropertyValuation, Undervalued]

  /** `renderRightPanel`'s priority order. */
  const RenderOrder: seq<Panel> :=
    [AgentGrid, RentAnalyticsV2, RentAnalytics, GenerateListing, Undervalued, PropertyValuation, PropertyListing]

  /** The first panel of `order` that `f` selects. */
  function FirstSelected(order: seq<Panel>, f: Panel -> bool): (r: Option<Panel>)
    ensures r.None? <==> forall k :: 0 <= k < |order| ==> !f(order[k])
    ensures r.Some? ==> exists k :: 0 <= k < |order| && order[k] == r.value && f(r.value)
                                    && forall j :: 0 <= j < k ==> !f(order[j])
  {
    if order == [] then None
    else if f(order[0]) then Some(order[0])
    else
      var r := FirstSelected(order[1..], f);
      assert forall k :: 1 <= k < |order| ==> order[k] == order[1..][k - 1];
      assert r.Some? ==> exists k :: 0 <= k < |order| && order[k] == r.value && f(r.value)
                                     && forall j :: 0 <= j < k ==> !f(order[j]) by {
        if r.Some? {
          var k :| 0 <= k < |order[1..]| && order[1..][k] == r.value && f(r.value)
                   && forall j :: 0 <= j < k ==> !f(order[1..][j]);
          assert order[k + 1] == r.value;
        }
      }
      r
  }

  /** The if-chain of `handleChatMessage`: the panel a typed message selects. */
  function Route(message: string): (r: Option<Panel>)
    ensures r.Some? ==> Mentions(message, r.value)
    ensures r.None? ==> forall p :: !Mentions(message, p)
  {
    if Mentions(message, AgentGrid) then Some(AgentGrid)
    else if Mentions(message, RentAnalyticsV2) then Some(RentAnalyticsV2)
    else if Mentions(message, RentAnalytics) then Some(RentAnalytics)
    else if Mentions(message, GenerateListing) then Some(GenerateListing)
    else if Mentions(message, PropertyListing) then Some(PropertyListing)
    else if Mentions(message, PropertyValuation) then Some(PropertyValuation)
    else if Mentions(message, Undervalued) then Some(Undervalued)
    else None
  }

  /** On a seven-entry order, `FirstSelected` is the if-chain that tests
      the entries one after another. */
  lemma FirstSelectedOfSeven(o: seq<Panel>, f: Panel -> bool)
    requires |o| == 7
    ensures FirstSelected(o, f)
            == if f(o[0]) then Some(o[0]) else if f(o[1]) then Some(o[1])
               else if f(o[2]) then Some(o[2]) else if f(o[3]) then Some(o[3])
               else if f(o[4]) then Some(o[4]) else if f(o[5]) then Some(o[5])
               else if f(o[6]) then Some(o[6]) else None
  {
    var o1 := o[1..];
    var o2 := o1[1..];
    var o3 := o2[1..];
    var o4 := o3[1..];
    var o5 := o4[1..];
    var o6 := o5[1..];
    assert o1[0] == o[1] && o2[0] == o[2] && o3[0] == o[3];
    assert o4[0] == o[4] && o5[0] == o[5] && o6[0] == o[6];
    assert o6[1..] == [];
  }

  /** Routing picks the first panel, in routing order, whose keyword the
      message mentions. */
  lemma RouteIsFirstMatch(message: string)
    ensures Route(message) == FirstSelected(RoutingOrder, p => Mentions(message, p))
  {
    FirstSelectedOfSeven(RoutingOrder, p => Mentions(message, p));
  }

  /** The order in which the artifact effects are declared. */
  const EffectOrder: seq<Panel> :=
    [AgentGrid, RentAnalyticsV2, RentAnalytics, GenerateListing, Undervalued, PropertyValuation, PropertyListing]

  /** Where each panel's effect sits in `EffectOrder`. */
  function EffectIndex(p: Panel): (k: nat)
    ensures k < |EffectOrder| && EffectOrder[k] == p
  {
    match p
    case AgentGrid => 0
    case RentAnalyticsV2 => 1
    case RentAnalytics => 2
    case GenerateListing => 3
    case Undervalued => 4
    case PropertyValuation => 5
    case PropertyListing => 6
  }

  /** A snapshot of the seven flags. */
  datatype Flags = Flags(
    agentGrid: bool,
    rentAnalyticsV2: bool,
    rentAnalytics: bool,
    generateListing: bool,
    propertyListing: bool,
    valuation: bool,
    undervalued: bool)
  {
    function Shown(p: Panel): bool {
      match p
      case AgentGrid => agentGrid
      case RentAnalyticsV2 => rentAnalyticsV2
      case RentAnalytics => rentAnalytics
      case GenerateListing => generateListing
      case PropertyListing => propertyListing
      case PropertyValuation => valuation
      case Undervalued => undervalued
    }
  }

  /** Exactly the panel `p` is shown. */
  function Only(p: Panel): (r: Flags)
    ensures forall q :: r.Shown(q) <==> q == p
  {
    Flags(p == AgentGrid, p == RentAnalyticsV2, p == RentAnalytics, p == GenerateListing,
          p == PropertyListing, p == PropertyValuation, p == Undervalued)
  }

  /** The flags the seed effect computes: each panel independently. */
  function SeedFlags(seed: string): (r: Flags)
    ensures forall p :: r.Shown(p) == Mentions(seed, p)
  {
    Flags(Mentions(seed, AgentGrid), Mentions(seed, RentAnalyticsV2), Mentions(seed, RentAnalytics),
          Mentions(seed, GenerateListing), Mentions(seed, PropertyListing),
          Mentions(seed, PropertyValuation), Mentions(seed, Undervalued))
  }

  /** The if-chain of `renderRightPanel`; `None` is the preview panel. */
  function Render(flags: Flags): (r: Option<Panel>)
    ensures r.Some? ==> flags.Shown(r.value)
    ensures r.None? ==> forall p :: !flags.Shown(p)
  {
    if flags.agentGrid then Some(AgentGrid)
    else if flags.rentAnalyticsV2 then Some(RentAnalyticsV2)
    else if flags.rentAnalytics then Some(RentAnalytics)
    else if flags.generateListing then Some(GenerateListing)
    else if flags.undervalued then Some(Undervalued)
    else if flags.valuation then Some(PropertyValuation)
    else if flags.propertyListing then Some(PropertyListing)
    else None
  }

  /** The render shows the first set flag in render order. */
  lemma RenderIsFirstShown(flags: Flags)
    ensures Render(flags) == FirstSelected(RenderOrder, p => flags.Shown(p))
  {
    FirstSelectedOfSeven(RenderOrder, p => flags.Shown(p));
  }

  /** After a routed message the render shows the routed panel. */
  lemma RenderShowsRoutedPanel(message: string)
    requires Route(message).Some?
    ensures Render(Only(Route(message).value)) == Route(message)
  {
  }

  /** When a seed mentions a single panel, the seed path and the message
      path agree on what is shown. */
  lemma SingleMentionAgrees(seed: string, p: Panel)
    requires Mentions(seed, p)
    requires forall q :: Mentions(seed, q) ==> q == p
    ensures Route(seed) == Some(p)
    ensures Render(SeedFlags(seed)) == Some(p)
  {
  }

  /** The content of the first user message, or "". */
  function FirstUserContent(messages: seq<ChatMessage>): (r: string)
    ensures r != "" ==> exists i :: 0 <= i < |messages| && messages[i].role == User && messages[i].content == r
                                    && forall j :: 0 <= j < i ==> messages[j].role != User
    ensures forall i :: (0 <= i < |messages| && messages[i].role == User
                         && (forall j :: 0 <= j < i ==> messages[j].role != User)) ==> r == messages[i].content
    ensures (forall i :: 0 <= i < |messages| ==> messages[i].role != User) ==> r == ""
  {
    if messages == [] then ""
    else if messages[0].role == User then messages[0].content
    else
      var r := FirstUserContent(messages[1..]);
      assert r != "" ==> exists i :: 0 <= i < |messages| && messages[i].role == User && messages[i].content == r
                                     && forall j :: 0 <= j < i ==> messages[j].role != User by {
        if r != "" {
          var i :| 0 <= i < |messages[1..]| && messages[1..][i].role == User && messages[1..][i].content == r
                   && forall j :: 0 <= j < i ==> messages[1..][j].role != User;
          assert messages[i + 1] == messages[1..][i];
          forall j | 0 <= j < i + 1 ensures messages[j].role != User {
            if j > 0 { assert messages[j] == messages[1..][j - 1]; }
          }
        }
      }
      r
  }

  /** `seedText`: the chat's first user message, else its title, else "". */
  function SeedText(chatId: string, sessions: seq<ChatSession>): (r: string)
    ensures chatId == "" || GetChat(sessions, chatId).None? ==> r == ""
    ensures chatId != "" && GetChat(sessions, chatId).Some? ==>
              r == if FirstUserContent(GetChat(sessions, chatId).value.messages) != ""
                   then FirstUserContent(GetChat(sessions, chatId).value.messages)
                   else GetChat(sessions, chatId).value.title
  {
    if chatId == "" then ""
    else match GetChat(sessions, chatId)
      case None => ""
      case Some(session) =>
        var first := FirstUserContent(session.messages);
        if first != "" then first else session.title
  }

  /** A chat created from a prompt is seeded with the prompt itself, or with
      "New chat" when the prompt was blank. */
  lemma PromptChatSeed(prompt: string, now: int, sessionId: string, messageId: string, rest: seq<ChatSession>)
    requires sessionId != ""
    ensures SeedText(sessionId, [PromptSession(prompt, now, sessionId, messageId)] + rest)
            == if IsBlank(prompt) then NewChatTitle else prompt
  {
    var sessions := [PromptSession(prompt, now, sessionId, messageId)] + rest;
    assert GetChat(sessions, sessionId) == Some(sessions[0]);
    if !IsBlank(prompt) {
      assert prompt != "" by { BlankIffAllWhitespace(prompt); }
      assert FirstUserContent(sessions[0].messages) == prompt;
    }
  }

  /** The routing if-chain, read off a snapshot of the seven flags. */
  function RouteFlags(f: Flags): (r: Option<Panel>)
    ensures r == FirstSelected(RoutingOrder, p => f.Shown(p))
  {
    FirstSelectedOfSeven(RoutingOrder, p => f.Shown(p));
    if f.agentGrid then Some(AgentGrid)
    else if f.rentAnalyticsV2 then Some(RentAnalyticsV2)
    else if f.rentAnalytics then Some(RentAnalytics)
    else if f.generateListing then Some(GenerateListing)
    else if f.propertyListing then Some(PropertyListing)
    else if f.valuation then Some(PropertyValuation)
    else if f.undervalued then Some(Undervalued)
    else None
  }

  /** A typed message selects what the seed's flags would select in
      routing order. */
  lemma RouteIsSeedRoute(message: string)
    ensures Route(message) == RouteFlags(SeedFlags(message))
  {
  }

  /** The two priority orders disagree exactly when none of the four
      panels both orders check first is shown, and either the property
      listing is shown with the valuation or undervalued panel, or the
      valuation and undervalued panels are shown together. Routing then
      prefers the property listing, then the valuation; rendering prefers
      the undervalued panel, then the valuation. */
  lemma OrdersDisagree(f: Flags)
    ensures RouteFlags(f) != Render(f)
            <==> !f.agentGrid && !f.rentAnalyticsV2 && !f.rentAnalytics && !f.generateListing
                 && ((f.propertyListing && (f.valuation || f.undervalued)) || (f.valuation && f.undervalued))
    ensures RouteFlags(f) != Render(f) ==>
              RouteFlags(f) == (if f.propertyListing then Some(PropertyListing) else Some(PropertyValuation))
              && Render(f) == (if f.undervalued then Some(Undervalued) else Some(PropertyValuation))
  {
  }

  /** Seeding the panels from a stored prompt and typing the same text as a
      message show different panels exactly when the orders split on the
      text's flags (each flag being whether the text mentions that panel). */
  lemma SeedAndRouteDisagree(message: string)
    ensures var f := SeedFlags(message);
            Route(message) != Render(f)
            <==> !f.agentGrid && !f.rentAnalyticsV2 && !f.rentAnalytics && !f.generateListing
                 && ((f.propertyListing && (f.valuation || f.undervalued)) || (f.valuation && f.undervalued))
    ensures var f := SeedFlags(message);
            Route(message) != Render(f) ==>
              Route(message) == (if f.propertyListing then Some(PropertyListing) else Some(PropertyValuation))
              && Render(f) == (if f.undervalued then Some(Undervalued) else Some(PropertyValuation))
  {
    RouteIsSeedRoute(message);
    OrdersDisagree(SeedFlags(message));
  }

  /** `after` differs from `before` only in the sessions with `chatId`, and
      no session's id changes. */
  predicate ChangedOnly(before: seq<ChatSession>, after: seq<ChatSession>, chatId: string) {
    |after| == |before|
    && (forall j :: 0 <= j < |after| ==> after[j].id == before[j].id)
    && (forall j :: 0 <= j < |after| && before[j].id != chatId ==> after[j] == before[j])
  }

  /** Sessions whose artifact titles were distinct still have distinct ones. */
  predicate DistinctKept(before: seq<ChatSession>, after: seq<ChatSession>) {
    |after| == |before|
    && forall j :: 0 <= j < |after| && ArtifactTitlesDistinct(before[j].artifacts) ==>
                     ArtifactTitlesDistinct(after[j].artifacts)
  }

  /** Every session with `chatId` holds an artifact for each of `titles`. */
  predicate TitlesRecorded(sessions: seq<ChatSession>, chatId: string, titles: set<string>) {
    forall j, t :: 0 <= j < |sessions| && sessions[j].id == chatId && t in titles ==>
                     HasArtifactTitled(sessions[j].artifacts, t)
  }

  /** The collection after the first `k` artifact effects have run with
      the given flags. */
  function RecordEffects(sessions: seq<ChatSession>, chatId: string, flags: Flags, now: int,
                         artifactId: Panel -> string, k: nat): (r: seq<ChatSession>)
    requires k <= |EffectOrder|
    ensures |r| == |sessions|
    ensures forall i :: 0 <= i < |r| && sessions[i].id != chatId ==> r[i] == sessions[i]
  {
    if k == 0 then sessions
    else
      var prev := RecordEffects(sessions, chatId, flags, now, artifactId, k - 1);
      var p := EffectOrder[k - 1];
      if flags.Shown(p) then ArtifactAdded(prev, chatId, ArtifactName(p), now, artifactId(p))
      else prev
  }

  /** One `addArtifact` call keeps the three properties and records its title. */
  lemma RecordStep(orig: seq<ChatSession>, before: seq<ChatSession>,
                   chatId: string, title: string, now: int, artifactId: string, titles: set<string>)
    requires ChangedOnly(orig, before, chatId) && DistinctKept(orig, before)
    requires TitlesRecorded(before, chatId, titles)
    requires ArtifactTitle(title) == title
    ensures var after := ArtifactAdded(before, chatId, title, now, artifactId);
            ChangedOnly(orig, after, chatId) && DistinctKept(orig, after)
            && TitlesRecorded(after, chatId, titles + {title})
  {
    var after := ArtifactAdded(before, chatId, title, now, artifactId);
    forall j | 0 <= j < |after| && after[j].id == chatId
      ensures forall t :: t in titles + {title} ==> HasArtifactTitled(after[j].artifacts, t)
      ensures ArtifactTitlesDistinct(before[j].artifacts) ==> ArtifactTitlesDistinct(after[j].artifacts)
    {
      ArtifactPresentAfterAdd(before[j], title, now, artifactId);
      forall t | t in titles ensures HasArtifactTitled(after[j].artifacts, t) {
        ArtifactTitlesKept(before[j], title, t, now, artifactId);
      }
      if ArtifactTitlesDistinct(before[j].artifacts) {
        ArtifactTitlesStayDistinct(before[j], title, now, artifactId);
      }
    }
  }

  /** The titles of the shown panels among the first `k` effects. */
  function ShownTitles(flags: Flags, k: nat): (r: set<string>)
    requires k <= |EffectOrder|
    ensures forall i :: 0 <= i < k && flags.Shown(EffectOrder[i]) ==> ArtifactName(EffectOrder[i]) in r
  {
    if k == 0 then {}
    else ShownTitles(flags, k - 1) + (if flags.Shown(EffectOrder[k - 1]) then {ArtifactName(EffectOrder[k - 1])} else {})
  }

  /** The artifact effects change only the open chat, keep its artifact
      titles distinct and leave it holding the title of every shown panel. */
  lemma {:induction false} RecordEffectsSound(sessions: seq<ChatSession>, chatId: string, flags: Flags,
                                               now: int, artifactId: Panel -> string, k: nat)
    requires k <= |EffectOrder|
    ensures var r := RecordEffects(sessions, chatId, flags, now, artifactId, k);
            ChangedOnly(sessions, r, chatId) && DistinctKept(sessions, r)
            && TitlesRecorded(r, chatId, ShownTitles(flags, k))
  {
    if k > 0 {
      var prev := RecordEffects(sessions, chatId, flags, now, artifactId, k - 1);
      var p := EffectOrder[k - 1];
      RecordEffectsSound(sessions, chatId, flags, now, artifactId, k - 1);
      if flags.Shown(p) {
        ArtifactNamesAreClean(p);
        RecordStep(sessions, prev, chatId, ArtifactName(p), now, artifactId(p), ShownTitles(flags, k - 1));
        assert ShownTitles(flags, k) == ShownTitles(flags, k - 1) + {ArtifactName(p)};
      } else {
        assert ShownTitles(flags, k) == ShownTitles(flags, k - 1);
      }
    }
  }

  /** Every shown panel's title is recorded in the open chat. */
  lemma ShownPanelsRecorded(sessions: seq<ChatSession>, chatId: string, flags: Flags,
                            now: int, artifactId: Panel -> string, p: Panel)
    requires flags.Shown(p)
    ensures var r := RecordEffects(sessions, chatId, flags, now, artifactId, |EffectOrder|);
            forall j :: 0 <= j < |r| && r[j].id == chatId ==> HasArtifactTitled(r[j].artifacts, ArtifactName(p))
  {
    RecordEffectsSound(sessions, chatId, flags, now, artifactId, |EffectOrder|);
    assert EffectOrder[EffectIndex(p)] == p;
    assert ArtifactName(p) in ShownTitles(flags, |EffectOrder|);
  }

  /** The workspace's panel state and current chat id. */
  class Workspace {
    var chatId: string
    var showPropertyListing: bool
    var showValuation: bool
    var showUndervalued: bool
    var showGenerateListing: bool
    var showRentAnalytics: bool
    var showRentAnalyticsV2: bool
    var showAgentGrid: bool

    /** Every flag starts false and there is no chat yet. */
    constructor()
      ensures chatId == "" && Panels() == Flags(false, false, false, false, false, false, false)
    {
      chatId := "";
      showPropertyListing, showValuation, showUndervalued := false, false, false;
      showGenerateListing, showRentAnalytics, showRentAnalyticsV2, showAgentGrid := false, false, false, false;
    }

    function Panels(): Flags
      reads this
    {
      Flags(showAgentGrid, showRentAnalyticsV2, showRentAnalytics, showGenerateListing,
            showPropertyListing, showValuation, showUndervalued)
    }

    /** `resetPanels`. */
    method ResetPanels()
      modifies this
      ensures Panels() == Flags(false, false, false, false, false, false, false)
      ensures chatId == old(chatId)
    {
      showRentAnalyticsV2 := false;
      showRentAnalytics := false;
      showGenerateListing := false;
      showPropertyListing := false;
      showValuation := false;
      showUndervalued := false;
      showAgentGrid := false;
    }

    /** `resetPanels()` followed by setting the one flag of `p`, as each
        branch of `handleChatMessage` does. */
    method ShowOnly(p: Panel)
      modifies this
      ensures Panels() == Only(p)
      ensures chatId == old(chatId)
    {
      ResetPanels();
      match p
      case AgentGrid => showAgentGrid := true;
      case RentAnalyticsV2 => showRentAnalyticsV2 := true;
      case RentAnalytics => showRentAnalytics := true;
      case GenerateListing => showGenerateListing := true;
      case PropertyListing => showPropertyListing := true;
      case PropertyValuation => showValuation := true;
      case Undervalued => showUndervalued := true;
    }

    /** `handleChatMessage`: the keyword if-chain is `Route`; a routed
        message leaves exactly its panel shown, a message without keywords
        changes nothing. */
    method HandleChatMessage(message: string)
      modifies this
      ensures Route(message).Some? ==> Panels() == Only(Route(message).value)
      ensures Route(message).None? ==> Panels() == old(Panels())
      ensures chatId == old(chatId)
    {
      var route := Route(message);
      if route.Some? {
        ShowOnly(route.value);
      }
    }

    /** Sets all seven flags at once. */
    method SetPanels(flags: Flags)
      modifies this
      ensures Panels() == flags
      ensures chatId == old(chatId)
    {
      showPropertyListing := flags.propertyListing;
      showValuation := flags.valuation;
      showUndervalued := flags.undervalued;
      showGenerateListing := flags.generateListing;
      showRentAnalytics := flags.rentAnalytics;
      showRentAnalyticsV2 := flags.rentAnalyticsV2;
      showAgentGrid := flags.agentGrid;
    }

    /** The seed effect: with a chat open, every flag is set from the seed
        text independently. */
    method ApplySeed(store: ChatStore)
      modifies this
      ensures chatId != "" ==> Panels() == SeedFlags(SeedText(chatId, store.sessions))
      ensures chatId == "" ==> Panels() == old(Panels())
      ensures chatId == old(chatId)
    {
      if chatId == "" {
        return;
      }
      SetPanels(SeedFlags(SeedText(chatId, store.sessions)));
    }

    /** The init effect: reuse the chat named in the address if it exists,
        otherwise create one from the prompt parameter, or an empty one.
        An absent parameter is the empty string. */
    method InitChat(store: ChatStore, chatIdParam: string, promptParam: string,
                    now: int, sessionId: string, messageId: string)
      modifies this, store
      ensures old(chatIdParam != "" && GetChat(store.sessions, chatIdParam).Some?) ==>
                chatId == chatIdParam && store.sessions == old(store.sessions)
      ensures old(!(chatIdParam != "" && GetChat(store.sessions, chatIdParam).Some?)) && !IsBlank(promptParam) ==>
                chatId == sessionId
                && store.sessions == [PromptSession(promptParam, now, sessionId, messageId)] + old(store.sessions)
      ensures old(!(chatIdParam != "" && GetChat(store.sessions, chatIdParam).Some?)) && IsBlank(promptParam) ==>
                chatId == sessionId && store.sessions == [EmptySession(now, sessionId)] + old(store.sessions)
      ensures GetChat(store.sessions, chatId).Some?
      ensures Panels() == old(Panels())
    {
      if chatIdParam != "" && GetChat(store.sessions, chatIdParam).Some? {
        chatId := chatIdParam;
        return;
      }
      chatId := NewChat(store, promptParam, now, sessionId, messageId);
    }

    /** The creating half of the init effect: a chat from a non-blank
        prompt, else an empty chat. */
    static method NewChat(store: ChatStore, promptParam: string, now: int, sessionId: string, messageId: string)
      returns (id: string)
      modifies store
      ensures id == sessionId
      ensures !IsBlank(promptParam) ==>
                store.sessions == [PromptSession(promptParam, now, sessionId, messageId)] + old(store.sessions)
      ensures IsBlank(promptParam) ==> store.sessions == [EmptySession(now, sessionId)] + old(store.sessions)
      ensures GetChat(store.sessions, id).Some?
    {
      if !IsBlank(promptParam) {
        id := store.CreateChatFromPrompt(promptParam, now, sessionId, messageId);
      } else {
        id := store.CreateEmptyChat(now, sessionId);
      }
    }

    /** The seven artifact effects, in their declaration order: each shown
        panel records its title in the open chat (see `RecordEffects`).
        `artifactId` supplies the fresh id each call would draw. */
    method RecordArtifacts(store: ChatStore, now: int, artifactId: Panel -> string)
      modifies store
      ensures chatId == "" ==> store.sessions == old(store.sessions)
      ensures chatId != "" ==>
                store.sessions == RecordEffects(old(store.sessions), chatId, Panels(), now, artifactId, |EffectOrder|)
    {
      if chatId == "" {
        return;
      }
      ghost var orig := store.sessions;
      var flags := Panels();
      for k := 0 to |EffectOrder|
        invariant store.sessions == RecordEffects(orig, chatId, flags, now, artifactId, k)
      {
        var p := EffectOrder[k];
        if flags.Shown(p) {
          store.AddArtifact(chatId, ArtifactName(p), now, artifactId(p));
        }
      }
    }
  }
}
