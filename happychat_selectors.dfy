/**
 * The support-chat ("happychat") selectors: the routing group of a chat, whether
 * the user may send messages, and whether there are unread messages.
 */
module HappychatSelectors {
  import opened Js

  /** Routing groups: platform support (WordPress.com) and partner support (Jetpack). */
  datatype Group = WPCOM | JPOP

  /**
   * Chat status. The five statuses that forbid sending are named; `Other` stands for
   * every other status value (assigned, assigning, new, closed, ...).
   */
  datatype ChatStatus = Blocked | Default | Pending | Missed | Abandoned | Other(name: string)

  /** A timeline message; only its timestamp (in seconds) is consulted. */
  datatype Message = Message(timestamp: Option<JsValue>, text: string)

  /** What the routing selector learns about the site from the site selectors. */
  datatype SiteFacts = SiteFacts(atEnabled: bool, jetpack: bool)

  /** The chat slice of the application state that the selectors read. */
  datatype ChatState = ChatState(
    clientConnected: bool,
    chatStatus: ChatStatus,
    timeline: seq<Message>,
    lostFocusAt: Option<JsValue>)

  const JetpackHappychatFlag := "jetpack/happychat"
  const JetpackConnectSection := "jetpackConnect"

  /** True when the chat is opened from the Jetpack Connect flow with the flag on. */
  predicate InJetpackConnect(features: set<string>, sectionName: Option<string>)
  {
    JetpackHappychatFlag in features && sectionName == Some(JetpackConnectSection)
  }

  /**
   * `getGroups`: the routing groups for a chat. The first rule returns early;
   * otherwise the site decides, with an AT-enabled site going to WPCOM even
   * when it is also a Jetpack site.
   */
  function GetGroups(features: set<string>, sectionName: Option<string>, site: SiteFacts): (groups: seq<Group>)
    ensures |groups| == 1
    ensures groups == [JPOP] <==> InJetpackConnect(features, sectionName) || (!site.atEnabled && site.jetpack)
    ensures groups == [WPCOM] <==> !InJetpackConnect(features, sectionName) && (site.atEnabled || !site.jetpack)
  {
    if InJetpackConnect(features, sectionName) then
      [JPOP]
    else if site.atEnabled then
      [WPCOM]
    else if site.jetpack then
      [JPOP]
    else
      [WPCOM]
  }

  /** In the Jetpack Connect flow the site plays no part in the routing decision. */
  lemma JetpackConnectIgnoresSite(features: set<string>, sectionName: Option<string>, a: SiteFacts, b: SiteFacts)
    requires InJetpackConnect(features, sectionName)
    ensures GetGroups(features, sectionName, a) == GetGroups(features, sectionName, b) == [JPOP]
  {
  }

  /** Outside Jetpack Connect an AT-enabled site goes to WPCOM, Jetpack or not. */
  lemma AutomatedTransferWins(features: set<string>, sectionName: Option<string>, jetpack: bool)
    requires !InJetpackConnect(features, sectionName)
    ensures GetGroups(features, sectionName, SiteFacts(true, jetpack)) == [WPCOM]
  {
  }

  /** The statuses in which a user may not send messages. */
  const InactiveStatuses: seq<ChatStatus> := [Blocked, Default, Pending, Missed, Abandoned]

  /**
   * `canUserSendMessages`: connected, and the status is none of the five
   * inactive ones. Stated against the complement: the status is some other one.
   */
  function CanUserSendMessages(state: ChatState): (r: bool)
    ensures !state.clientConnected ==> !r
    ensures r <==> state.clientConnected && state.chatStatus.Other?
  {
    state.clientConnected && state.chatStatus !in InactiveStatuses
  }

  /** The timestamp of the last timeline message, `undefined` for an empty timeline. */
  function LastMessageTimestamp(timeline: seq<Message>): (t: Option<JsValue>)
    ensures timeline == [] ==> t == None
    ensures timeline != [] ==> t == timeline[|timeline| - 1].timestamp
  {
    if timeline == [] then None else timeline[|timeline| - 1].timestamp
  }

  /** The message was sent (seconds) no earlier than the instant `ms` (milliseconds). */
  predicate SentNoEarlierThan(m: Message, ms: int)
  {
    m.timestamp.Some? && m.timestamp.value.Number? && m.timestamp.value.n * 1000 >= ms
  }

  /**
   * `hasUnreadMessages` (the selector body): the last message, converted from
   * seconds to milliseconds, is no earlier than the moment focus was lost; both
   * values must be numbers.
   */
  function HasUnreadMessages(state: ChatState): (r: bool)
    ensures state.timeline == [] ==> !r
    ensures !(state.lostFocusAt.Some? && state.lostFocusAt.value.Number?) ==> !r
    ensures r <==> state.timeline != [] && state.lostFocusAt.Some? && state.lostFocusAt.value.Number? &&
                   SentNoEarlierThan(state.timeline[|state.timeline| - 1], state.lostFocusAt.value.n)
  {
    var last := LastMessageTimestamp(state.timeline);
    last.Some? && last.value.Number? &&
    state.lostFocusAt.Some? && state.lostFocusAt.value.Number? &&
    last.value.n * 1000 >= state.lostFocusAt.value.n
  }

  /** Only the last message counts: whatever came before it never changes the answer. */
  lemma OnlyLastMessageCounts(state: ChatState, earlier: seq<Message>, last: Message)
    requires state.timeline != [] && state.timeline[|state.timeline| - 1] == last
    ensures HasUnreadMessages(state) == HasUnreadMessages(state.(timeline := earlier + [last]))
  {
  }

  /** Losing focus earlier can only turn "no unread messages" into "unread messages". */
  lemma EarlierLostFocusKeepsUnread(state: ChatState, f: int, g: int)
    requires g <= f
    requires HasUnreadMessages(state.(lostFocusAt := Some(Number(f))))
    ensures HasUnreadMessages(state.(lostFocusAt := Some(Number(g))))
  {
  }

  /**
   * Appending a message makes the chat unread exactly when that message, in
   * milliseconds, is no earlier than the moment focus was lost.
   */
  lemma ArrivalAfterLostFocus(state: ChatState, lostMs: int, sec: int, text: string)
    ensures HasUnreadMessages(state.(timeline := state.timeline + [Message(Some(Number(sec)), text)],
                                     lostFocusAt := Some(Number(lostMs))))
            <==> sec * 1000 >= lostMs
  {
  }
}
