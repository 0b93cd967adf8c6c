/**
  The dispatcher (main.go's BotInstance): every update goes through the blocked-user gate and
  is routed to the admin or the user path; admin replies go back to the user named in the
  replied-to message, admin commands start the editors or list and count users, other admin
  input goes to the welcome editor and then to the broadcast builder, and user messages are
  relayed to the admin chat.
*/
module Bot {
  import opened Options
  import opened Text
  import opened Telegram
  import opened Store
  import opened States
  import opened Relay
  import Broadcast
  import Welcome

  /** The acts sending each of `ms`, in order. */
  function Sends(ms: seq<Outgoing>): (acts: seq<Act>)
    ensures |acts| == |ms|
    ensures forall k :: 0 <= k < |ms| ==> acts[k] == SendMsg(ms[k])
  {
    if ms == [] then [] else [SendMsg(ms[0])] + Sends(ms[1..])
  }

  /** The greeting /start sends, given which of its two reads failed. */
  function StartGreeting(chat: int, config: map<string, string>, textFailed: bool, specFailed: bool): Outgoing {
    Welcome.Greeting(chat, Welcome.Fetched(config, WelcomeMessageKey, textFailed),
      Welcome.Fetched(config, WelcomeButtonsKey, specFailed))
  }

  /**
    What a message from a user who is not blocked causes: /start sets the command menu and
    greets; anything else is copied to the admin chat and acknowledged, or, with no admin chat
    configured, answered with an apology.
  */
  function UserActs(m: Message, admins: set<int>, forwardTo: int, greeting: Outgoing): seq<Act> {
    if m.command == Some("start") then [SetCommandMenu(m.chat, m.chat in admins), SendMsg(greeting)]
    else if forwardTo != 0 then
      Sends(ForwardCopies(m, forwardTo, false)) + [SendMsg(Outgoing(m.chat, Note(MessageReceived), NoMarkup))]
    else [SendMsg(Outgoing(m.chat, Note(CannotRoute), NoMarkup))]
  }

  /**
    The acts of the reply path: the copy to the user and the admin's confirmation, or one
    failure notice to the admin chat; `delivered` says whether the copy went out.
  */
  function ReplyActs(m: Message, forwardTo: int, delivered: bool): seq<Act>
    requires m.replyTo.Some?
  {
    var target := ReplyTargetId(m.replyTo.value);
    if target == 0 then [SendMsg(Outgoing(forwardTo, Note(ReplyNoUserId), NoMarkup))]
    else match ReplyContent(m)
      case None => [SendMsg(Outgoing(forwardTo, Note(ReplyUnsupported), NoMarkup))]
      case Some(c) =>
        [SendMsg(Outgoing(target, c, NoMarkup)),
         SendMsg(Outgoing(forwardTo, Note(if delivered then ReplyDelivered else ReplyFailed(target)), NoMarkup))]
  }

  /**
    The reply path never sends anything to user 0 and always tells the admin chat exactly one
    thing; when it sends a copy, that copy goes to the user the replied-to message names.
  */
  lemma ReplyActsSpec(m: Message, forwardTo: int, delivered: bool)
    requires m.replyTo.Some?
    ensures var acts := ReplyActs(m, forwardTo, delivered);
      && 1 <= |acts| <= 2
      && acts[|acts| - 1].SendMsg? && acts[|acts| - 1].msg.chat == forwardTo
      && (|acts| == 2 <==> ReplyTargetId(m.replyTo.value) != 0 && ReplyContent(m).Some?)
      && (|acts| == 2 ==> acts[0] == SendMsg(Outgoing(ReplyTargetId(m.replyTo.value), ReplyContent(m).value, NoMarkup)))
  {
  }

  /**
    With the corrected headline, a reply to a relayed message reaches its sender: the admin
    chat shows the headline of the copy, and a reply to it that carries content is sent to the
    user who wrote the original.
  */
  lemma ReplyToRelayedReachesSender(sender: User, rest: string, reply: Message, forwardTo: int, delivered: bool)
    requires 0 < sender.id <= MaxInt64
    requires reply.replyTo == Some(Quoted(VisibleHeadline(SafeName(sender.firstName) + " (" + FormatInt(sender.id) + ")") + rest, ""))
    requires ReplyContent(reply).Some?
    ensures ReplyActs(reply, forwardTo, delivered)[0] == SendMsg(Outgoing(sender.id, ReplyContent(reply).value, NoMarkup))
  {
    CaptionRepliesToSender(sender, rest);
  }

  /** handleListBlocked's message when every store read succeeds. */
  function PageProfiles(ids: seq<string>, page: int, profiles: map<int, Profile>): (ps: seq<Profile>)
    requires |ids| > 0
    ensures var p := ClampPage(page, TotalPages(|ids|)); |ps| == PageEnd(p, |ids|) - PageStart(p)
  {
    Paging(|ids|, page);
    var p := ClampPage(page, TotalPages(|ids|));
    var start := PageStart(p);
    seq(PageEnd(p, |ids|) - start, i requires 0 <= i < PageEnd(p, |ids|) - start =>
      ProfileOf(profiles, ProfileId(ids[start + i])))
  }

  /** The reply to a list request for `page` over the listing `ids` of the blocked set. */
  function ListReply(chat: int, ids: seq<string>, page: int, profiles: map<int, Profile>): Outgoing {
    if |ids| == 0 then Outgoing(chat, Note(NoBlockedUsers), NoMarkup)
    else Listing(chat, ids, page, PageProfiles(ids, page, profiles), PageProfiles(ids, page, profiles))
  }

  /** The statistics message: everyone known, the known who are not blocked, the blocked. */
  function StatsReport(chat: int, total: int, blocked: int): Outgoing {
    Outgoing(chat, Note(Stats(total, total - blocked, blocked)), NoMarkup)
  }

  /** Everything the handlers read or change, taken at one moment. */
  datatype Snapshot = Snapshot(
    tags: map<int, int>,
    config: map<string, string>,
    known: set<string>,
    blocked: set<string>,
    profiles: map<int, Profile>,
    acts: seq<Act>,
    results: seq<SendResult>,
    drafts: map<int, Broadcast.Draft>,
    prompts: map<int, int>)

  /** The broadcast draft of `chat` in `drafts`, the empty one when there is none. */
  function DraftIn(drafts: map<int, Broadcast.Draft>, chat: int): Broadcast.Draft {
    if chat in drafts then drafts[chat] else Broadcast.EmptyDraft
  }

  class BotInstance {
    const api: Transport
    const store: KeyValueStore
    /** adminStates, shared with both managers. */
    const states: StateTable
    /** adminIDs. */
    const admins: set<int>
    /** forwardToAdminID; 0 when no admin chat is configured. */
    const forwardTo: int
    const broadcast: Broadcast.Manager
    const welcome: Welcome.Manager

    /** Both managers talk to the bot's transport, store and state table. */
    ghost predicate Wired() {
      && broadcast.api == api && broadcast.store == store && broadcast.states == states
      && welcome.api == api && welcome.store == store && welcome.states == states
    }

    constructor (api: Transport, store: KeyValueStore, admins: set<int>, forwardTo: int)
      ensures Wired()
      ensures this.api == api && this.store == store && this.admins == admins && this.forwardTo == forwardTo
      ensures fresh(states) && states.tags == map[]
      ensures broadcast.drafts == map[] && broadcast.prompts == map[]
    {
      this.api := api;
      this.store := store;
      this.admins := admins;
      this.forwardTo := forwardTo;
      var table := new StateTable();
      states := table;
      broadcast := new Broadcast.Manager(api, store, table);
      welcome := new Welcome.Manager(api, store, table);
    }

    ghost function Now(): Snapshot
      reads this, states, store, api, broadcast
    {
      Snapshot(states.tags, store.config, store.known, store.blocked, store.profiles,
        api.acts, api.results, broadcast.drafts, broadcast.prompts)
    }

    /** Nothing but the transport has changed since `s0`. */
    ghost predicate Quiet(s0: Snapshot)
      reads this, states, store, broadcast
    {
      && states.tags == s0.tags && store.config == s0.config
      && store.known == s0.known && store.blocked == s0.blocked && store.profiles == s0.profiles
      && broadcast.drafts == s0.drafts && broadcast.prompts == s0.prompts
    }

    /**
      `act` sends the blocked list for `page` to `chat`; with a store that answers, it is the
      list of some listing of the blocked set with the stored profiles.
    */
    ghost predicate ListMessage(chat: int, page: int, act: Act)
      reads this, store
    {
      && act.SendMsg? && act.msg.chat == chat
      && (store.healthy ==> exists ids :: Lists(ids, store.blocked) && act == SendMsg(ListReply(chat, ids, page, store.profiles)))
    }

    /** The reply path has run on `m` since `s0`. */
    ghost predicate Replied(m: Message, s0: Snapshot)
      requires m.replyTo.Some?
      reads this, states, store, api, broadcast
    {
      && Quiet(s0)
      && |api.results| >= |s0.results|
      && api.acts == s0.acts + ReplyActs(m, forwardTo, |api.results| > |s0.results| && api.results[|s0.results|].Delivered?)
    }

    /** /start has run in `chat` since `s0`: command menu, then greeting. */
    ghost predicate Greeted(chat: int, s0: Snapshot)
      reads this, states, store, api, broadcast
    {
      && Quiet(s0)
      && exists textFailed: bool, specFailed: bool ::
           && (store.healthy ==> !textFailed && !specFailed)
           && api.acts == s0.acts + [SetCommandMenu(chat, chat in admins), SendMsg(StartGreeting(chat, store.config, textFailed, specFailed))]
    }

    /** A welcome editor has been opened in `chat` since `s0`, showing the current value. */
    ghost predicate Editing(chat: int, welcomeText: bool, s0: Snapshot)
      reads this, states, store, api, broadcast
    {
      var key := if welcomeText then WelcomeMessageKey else WelcomeButtonsKey;
      && states.tags == s0.tags[chat := if welcomeText then AwaitingWelcomeMessage else AwaitingWelcomeButtons]
      && store.config == s0.config && store.known == s0.known && store.blocked == s0.blocked
      && store.profiles == s0.profiles && broadcast.drafts == s0.drafts && broadcast.prompts == s0.prompts
      && exists failed: bool ::
           && (store.healthy ==> !failed)
           && var shown := Welcome.Current(Welcome.Fetched(store.config, key, failed));
              api.acts == s0.acts + [SendMsg(Outgoing(chat, Note(if welcomeText then CurrentWelcome(shown) else CurrentButtons(shown)), NoMarkup))]
    }

    /** The broadcast builder has been started in `chat` since `s0`. */
    ghost predicate Building(chat: int, s0: Snapshot)
      reads this, states, store, api, broadcast
    {
      && states.tags == s0.tags[chat := BroadcastAwaitText]
      && broadcast.drafts == s0.drafts[chat := Broadcast.EmptyDraft] && broadcast.prompts == s0.prompts
      && store.config == s0.config && store.known == s0.known && store.blocked == s0.blocked
      && store.profiles == s0.profiles
      && api.acts == s0.acts + [SendMsg(Outgoing(chat, Note(AskText), Broadcast.CancelKeyboard()))]
    }

    /** The blocked list for `page` has been sent to `chat` since `s0`. */
    ghost predicate Listed(chat: int, page: int, s0: Snapshot)
      reads this, states, store, api, broadcast
    {
      && Quiet(s0)
      && |api.acts| == |s0.acts| + 1 && api.acts[..|s0.acts|] == s0.acts
      && ListMessage(chat, page, api.acts[|s0.acts|])
    }

    /** The statistics have been sent to `chat` since `s0`. */
    ghost predicate Counted(chat: int, s0: Snapshot)
      reads this, states, store, api, broadcast
    {
      && Quiet(s0)
      && (|| api.acts == s0.acts + [SendMsg(Outgoing(chat, Note(StatsFailed), NoMarkup))]
          || api.acts == s0.acts + [SendMsg(StatsReport(chat, |store.known|, |store.blocked|))]
          || (!store.healthy && api.acts == s0.acts + [SendMsg(StatsReport(chat, |store.known|, 0))]))
      && (store.healthy ==> api.acts == s0.acts + [SendMsg(StatsReport(chat, |store.known|, |store.blocked|))])
    }

    /**
      Admin input outside a command has been handled since `s0`: the welcome editor takes it
      when the sender waits for a welcome value, and the broadcast builder is consulted only
      otherwise; with neither waiting, nothing changes.
    */
    ghost predicate StatefulServed(m: Message, s0: Snapshot)
      reads this, states, store, api, broadcast, welcome, welcome.store, welcome.states, welcome.api
    {
      && store.known == s0.known && store.blocked == s0.blocked && store.profiles == s0.profiles
      && if m.from.id in s0.tags && IsWelcomeTag(s0.tags[m.from.id]) then
           && broadcast.drafts == s0.drafts && broadcast.prompts == s0.prompts
           && welcome.Saved(s0.config, s0.tags, s0.acts, m,
                if s0.tags[m.from.id] == AwaitingWelcomeMessage then WelcomeMessageKey else WelcomeButtonsKey)
         else
           && store.config == s0.config
           && (m.chat !in s0.tags || !IsBroadcastTag(s0.tags[m.chat]) ==> Quiet(s0) && api.acts == s0.acts)
    }

    /** An admin command has been carried out since `s0`. */
    ghost predicate Commanded(m: Message, s0: Snapshot)
      requires m.command.Some?
      reads this, states, store, api, broadcast, welcome, welcome.store, welcome.states, welcome.api
    {
      match m.command.value
      case "start" => Greeted(m.chat, s0)
      case "setwelcome" => Editing(m.chat, true, s0)
      case "setbuttons" => Editing(m.chat, false, s0)
      case "broadcast" => Building(m.chat, s0)
      case "listblocked" => Listed(m.chat, 1, s0)
      case "stats" => Counted(m.chat, s0)
      case _ => StatefulServed(m, s0)
    }

    /**
      An admin message has been handled since `s0`: a reply in the admin chat takes the reply
      path and nothing else; otherwise a command runs, or the input goes to the editors.
    */
    ghost predicate AdminServed(m: Message, s0: Snapshot)
      reads this, states, store, api, broadcast, welcome, welcome.store, welcome.states, welcome.api
    {
      if m.replyTo.Some? && forwardTo == m.chat then Replied(m, s0)
      else if m.command.Some? then Commanded(m, s0)
      else StatefulServed(m, s0)
    }

    /**
      A user's message has been handled since `s0`: a blocked user gets only the blocked
      notice; a failing block check ends handling with nothing sent; anyone else gets UserActs.
    */
    ghost predicate UserServed(m: Message, s0: Snapshot)
      reads this, states, store, api, broadcast
    {
      && Quiet(s0)
      && if FormatInt(m.from.id) in store.blocked then
           || api.acts == s0.acts + [SendMsg(Outgoing(m.chat, Note(YouAreBlocked), NoMarkup))]
           || (!store.healthy && api.acts == s0.acts)
         else
           || (!store.healthy && api.acts == s0.acts)
           || exists textFailed: bool, specFailed: bool ::
                && (store.healthy ==> !textFailed && !specFailed)
                && api.acts == s0.acts + UserActs(m, admins, forwardTo, StartGreeting(m.chat, store.config, textFailed, specFailed))
    }

    /** A message has been routed by its sender since `s0`. */
    ghost predicate Dispatched(m: Message, s0: Snapshot)
      reads this, states, store, api, broadcast, welcome, welcome.store, welcome.states, welcome.api
    {
      if m.from.id in admins then AdminServed(m, s0) else UserServed(m, s0)
    }

    /**
      An unblock press has been handled since `s0`: the user is removed from the blocked set,
      the press acknowledged and the first page of the list sent; a failing removal ends
      handling with nothing sent.
    */
    ghost predicate Unblocked(q: CallbackQuery, id: int, s0: Snapshot)
      reads this, states, store, api, broadcast
    {
      && Quiet(s0.(blocked := store.blocked))
      && (|| (!store.healthy && store.blocked == s0.blocked && api.acts == s0.acts)
          || (&& store.blocked == s0.blocked - {FormatInt(id)}
              && |api.acts| == |s0.acts| + 2 && api.acts[..|s0.acts|] == s0.acts
              && api.acts[|s0.acts|] == AnswerCallback(q.id, UnblockedAck)
              && ListMessage(q.chat, 1, api.acts[|s0.acts| + 1])))
      && (store.healthy ==> store.blocked == s0.blocked - {FormatInt(id)} && |api.acts| == |s0.acts| + 2)
    }

    /** A page press has been handled since `s0`: the page is sent, then the press acknowledged. */
    ghost predicate Paged(q: CallbackQuery, n: int, s0: Snapshot)
      reads this, states, store, api, broadcast
    {
      && Quiet(s0)
      && |api.acts| == |s0.acts| + 2 && api.acts[..|s0.acts|] == s0.acts
      && ListMessage(q.chat, n, api.acts[|s0.acts|])
      && api.acts[|s0.acts| + 1] == AnswerCallback(q.id, Silent)
    }

    /**
      A block press has been handled since `s0`: the user joins the blocked set and the press
      is acknowledged; a failing store ends handling with nothing sent.
    */
    ghost predicate Blocked(q: CallbackQuery, id: int, s0: Snapshot)
      reads this, states, store, api, broadcast
    {
      && Quiet(s0.(blocked := store.blocked))
      && (|| (!store.healthy && store.blocked == s0.blocked && api.acts == s0.acts)
          || (store.blocked == s0.blocked + {FormatInt(id)} && api.acts == s0.acts + [AnswerCallback(q.id, BlockedAck)]))
      && (store.healthy ==> store.blocked == s0.blocked + {FormatInt(id)})
    }

    /**
      A press the dispatcher does not own has been handled since `s0`: a builder payload makes
      the builder's transition on the chat's tag and draft; anything else is acknowledged
      silently and changes nothing.
    */
    ghost predicate Delegated(q: CallbackQuery, s0: Snapshot)
      reads this, states, store, api, broadcast
    {
      && store.config == s0.config && store.known == s0.known && store.blocked == s0.blocked
      && store.profiles == s0.profiles
      && if Broadcast.Prefix <= q.data then
           && states.tags == Broadcast.Apply(s0.tags, q.chat, Broadcast.TagChange(Broadcast.ActionOf(q.data)))
           && broadcast.drafts == Broadcast.Apply(s0.drafts, q.chat,
                Broadcast.DraftChange(Broadcast.ActionOf(q.data), DraftIn(s0.drafts, q.chat)))
         else Quiet(s0) && api.acts == s0.acts + [AnswerCallback(q.id, Silent)]
    }

    /** A button press has been handled since `s0`, by what its payload decodes to. */
    ghost predicate CallbackServed(q: CallbackQuery, s0: Snapshot)
      reads this, states, store, api, broadcast
    {
      match DecodeCallback(q.data)
      case Unblock(id) => Unblocked(q, id, s0)
      case ShowPage(n) => Paged(q, n, s0)
      case Block(id) => Blocked(q, id, s0)
      case Ignore => Now() == s0
      case Delegate => Delegated(q, s0)
    }

    // -------------------------------------------------------------------------
    // Updates

    /**
      handleUpdate: a message first records its sender's profile and, unless the sender is
      blocked, the sender as known; then it is routed. A button press goes to the callback
      handler; any other update is ignored.
    */
    method HandleUpdate(u: Update)
      requires Wired()
      modifies store, states, api, broadcast
      ensures u.MessageUpdate? ==>
                var id := u.message.from.id;
                && store.known <= old(store.known) + {FormatInt(id)}
                && (store.healthy ==>
                      && store.known == old(store.known) + (if FormatInt(id) in old(store.blocked) then {} else {FormatInt(id)})
                      && store.profiles == old(store.profiles)[id := Profile(u.message.from.firstName, u.message.from.lastName, u.message.from.userName)])
                && exists known1: set<string>, profiles1: map<int, Profile> ::
                     Dispatched(u.message, old(Now()).(known := known1, profiles := profiles1))
      ensures u.CallbackUpdate? ==> CallbackServed(u.query, old(Now()))
      ensures u.OtherUpdate? ==> Now() == old(Now())
    {
      match u
      case MessageUpdate(m) =>
        RecordSender(m.from);
        ghost var s1 := Now();
        HandleMessage(m);
        assert Dispatched(m, old(Now()).(known := s1.known, profiles := s1.profiles));
      case CallbackUpdate(q) =>
        HandleCallbackQuery(q);
      case OtherUpdate =>
    }

    /**
      What handleUpdate records about a message's sender before routing it: the profile, and
      the ID in the known set unless the ID is blocked.
    */
    method RecordSender(user: User)
      modifies store
      ensures store.known <= old(store.known) + {FormatInt(user.id)}
      ensures store.healthy ==>
                && store.known == old(store.known) + (if FormatInt(user.id) in old(store.blocked) then {} else {FormatInt(user.id)})
                && store.profiles == old(store.profiles)[user.id := Profile(user.firstName, user.lastName, user.userName)]
      ensures store.blocked == old(store.blocked) && store.config == old(store.config)
    {
      var _ := store.StoreUserInfo(user);
      var isBlocked, _ := store.IsBlocked(user.id);
      if !isBlocked {
        store.AddKnown(user.id);
      }
    }

    /** handleMessage: admins by sender ID take the admin path, everyone else the user path. */
    method HandleMessage(m: Message)
      requires Wired()
      modifies store, states, api, broadcast
      ensures Dispatched(m, old(Now()))
      ensures store.known == old(store.known) && store.profiles == old(store.profiles)
    {
      if m.from.id in admins {
        HandleAdminMessage(m);
      } else {
        HandleUserMessage(m);
      }
    }

    // -------------------------------------------------------------------------
    // The admin path

    /** handleAdminMessage. */
    method HandleAdminMessage(m: Message)
      requires Wired()
      modifies store, states, api, broadcast
      ensures AdminServed(m, old(Now()))
    {
      if m.replyTo.Some? && forwardTo == m.chat {
        ReplyToUser(m);
      } else if m.command.Some? {
        RunCommand(m);
      } else {
        HandleAdminStatefulMessage(m);
      }
    }

    /** The reply path: find the user, send the copy, report to the admin chat. */
    method ReplyToUser(m: Message)
      requires m.replyTo.Some?
      modifies api
      ensures Replied(m, old(Now()))
    {
      var target := ReplyTargetId(m.replyTo.value);
      if target == 0 {
        var _ := api.Send(Outgoing(forwardTo, Note(ReplyNoUserId), NoMarkup));
        return;
      }
      match ReplyContent(m)
      case None =>
        var _ := api.Send(Outgoing(forwardTo, Note(ReplyUnsupported), NoMarkup));
      case Some(c) =>
        var r := api.Send(Outgoing(target, c, NoMarkup));
        assert api.results[|old(api.results)|] == r;
        if r.Failed? {
          var _ := api.Send(Outgoing(forwardTo, Note(ReplyFailed(target)), NoMarkup));
        } else {
          var _ := api.Send(Outgoing(forwardTo, Note(ReplyDelivered), NoMarkup));
        }
    }

    /** The command switch of handleAdminMessage; unknown commands are treated as input. */
    method RunCommand(m: Message)
      requires Wired() && m.command.Some?
      modifies store, states, api, broadcast
      ensures Commanded(m, old(Now()))
    {
      match m.command.value
      case "start" =>
        Greet(m.chat);
      case "setwelcome" =>
        welcome.StartSetWelcomeProcess(m.chat);
      case "setbuttons" =>
        welcome.StartSetButtonsProcess(m.chat);
      case "broadcast" =>
        broadcast.StartBroadcastBuilder(m.chat);
      case "listblocked" =>
        ListBlocked(m.chat, 1);
      case "stats" =>
        UserStats(m.chat);
      case _ =>
        HandleAdminStatefulMessage(m);
    }

    /** /start from anyone: the command menu for the chat, then the greeting. */
    method Greet(chat: int)
      requires Wired()
      modifies api
      ensures Greeted(chat, old(Now()))
    {
      api.SetCommands(chat, chat in admins);
      ghost var acts1 := api.acts;
      welcome.HandleStartCommand(chat);
      ghost var textFailed: bool, specFailed: bool :|
        && (store.healthy ==> !textFailed && !specFailed)
        && api.acts == acts1 + [SendMsg(StartGreeting(chat, store.config, textFailed, specFailed))];
    }

    /** handleAdminStatefulMessage: the welcome editor first, then the broadcast builder. */
    method HandleAdminStatefulMessage(m: Message)
      requires Wired()
      modifies store, states, api, broadcast
      ensures StatefulServed(m, old(Now()))
    {
      var taken := welcome.HandleAdminMessageInput(m);
      if taken {
        return;
      }
      var _ := broadcast.HandleMessageInput(m);
    }

    /**
      handleListBlocked: one message to `chat`, either a failure notice, the notice that
      nobody is blocked, or the numbered page of members with their unblock buttons and, when
      there is more than one page, the page buttons.
    */
    method ListBlocked(chat: int, page: int)
      modifies api
      ensures |api.acts| == |old(api.acts)| + 1 && api.acts[..|old(api.acts)|] == old(api.acts)
      ensures ListMessage(chat, page, api.acts[|old(api.acts)|])
    {
      var ids, err := store.BlockedIds();
      if err {
        var _ := api.Send(Outgoing(chat, Note(ListBlockedFailed), NoMarkup));
        return;
      }
      if |ids| == 0 {
        var _ := api.Send(Outgoing(chat, Note(NoBlockedUsers), NoMarkup));
        return;
      }
      var msg := PageMessage(chat, ids, page);
      var _ := api.Send(msg);
      assert store.healthy ==> api.acts[|old(api.acts)|] == SendMsg(ListReply(chat, ids, page, store.profiles));
    }

    /**
      The page of the listing `ids` that handleListBlocked shows: with a store that answers,
      exactly the list reply for that page.
    */
    method PageMessage(chat: int, ids: seq<string>, page: int) returns (msg: Outgoing)
      requires |ids| > 0
      ensures msg.chat == chat && msg.content.Note? && msg.content.notice.BlockedPage?
      ensures store.healthy ==> msg == ListReply(chat, ids, page, store.profiles)
    {
      var total := TotalPages(|ids|);
      var p := ClampPage(page, total);
      Paging(|ids|, page);
      var start := PageStart(p);
      var current := ids[start..PageEnd(p, |ids|)];
      assert forall k :: 0 <= k < |current| ==> current[k] == ids[start + k];
      var entries, shown := PageEntries(start, current);
      var rows, labels := UnblockRows(current);
      ListingFrom(chat, ids, page, shown, labels, entries, rows);
      ghost var want := Listing(chat, ids, page, shown, labels);
      if total > 1 {
        var nav := NavButtons(p, total);
        rows := rows + [nav];
      }
      assert want.markup == Keyboard(rows);
      var markup := if |rows| > 0 then Keyboard(rows) else NoMarkup;
      msg := Outgoing(chat, Note(BlockedPage(p, total, entries)), markup);
      if store.healthy {
        ReadProfiles(ids, page, store.profiles, current, shown);
        ReadProfiles(ids, page, store.profiles, current, labels);
      }
    }

    /**
      The numbered lines of the members `current`, numbered on from `start`; `shown` are the
      profiles read for them.
    */
    method PageEntries(start: int, current: seq<string>) returns (entries: seq<Entry>, ghost shown: seq<Profile>)
      ensures |entries| == |shown| == |current|
      ensures forall k :: 0 <= k < |current| ==> entries[k] == Entry(start + k + 1, DisplayName(shown[k], current[k]))
      ensures store.healthy ==> forall k :: 0 <= k < |current| ==> shown[k] == ProfileOf(store.profiles, ProfileId(current[k]))
    {
      entries, shown := [], [];
      ghost var healthy, profiles := store.healthy, store.profiles;
      var i := 0;
      while i < |current|
        invariant 0 <= i <= |current|
        invariant |entries| == |shown| == i
        invariant forall k :: 0 <= k < i ==> entries[k] == Entry(start + k + 1, DisplayName(shown[k], current[k]))
        invariant healthy ==> forall k :: 0 <= k < i ==> shown[k] == ProfileOf(profiles, ProfileId(current[k]))
      {
        var profile, _ := store.GetUserInfo(ProfileId(current[i]));
        entries := entries + [Entry(start + i + 1, DisplayName(profile, current[i]))];
        ReadOneMore(shown, current, i, profiles, profile, healthy);
        shown := shown + [profile];
        i := i + 1;
      }
    }

    /** One unblock row per member of `current`; `labels` are the profiles read for them. */
    method UnblockRows(current: seq<string>) returns (rows: Rows, ghost labels: seq<Profile>)
      ensures |rows| == |labels| == |current|
      ensures forall k :: 0 <= k < |current| ==>
                rows[k] == [DataButton(UnblockLabel(labels[k], current[k]), UnblockPrefix + current[k])]
      ensures store.healthy ==> forall k :: 0 <= k < |current| ==> labels[k] == ProfileOf(store.profiles, ProfileId(current[k]))
    {
      rows, labels := [], [];
      ghost var healthy, profiles := store.healthy, store.profiles;
      var i := 0;
      while i < |current|
        invariant 0 <= i <= |current|
        invariant |rows| == |labels| == i
        invariant forall k :: 0 <= k < i ==> rows[k] == [DataButton(UnblockLabel(labels[k], current[k]), UnblockPrefix + current[k])]
        invariant healthy ==> forall k :: 0 <= k < i ==> labels[k] == ProfileOf(profiles, ProfileId(current[k]))
      {
        var profile, _ := store.GetUserInfo(ProfileId(current[i]));
        rows := rows + [[DataButton(UnblockLabel(profile, current[i]), UnblockPrefix + current[i])]];
        ReadOneMore(labels, current, i, profiles, profile, healthy);
        labels := labels + [profile];
        i := i + 1;
      }
    }

    /** handleUserStats: a failed user count is reported; a failed blocked count reads as 0. */
    method UserStats(chat: int)
      modifies api
      ensures Counted(chat, old(Now()))
    {
      var known, err := store.KnownIds();
      if err {
        var _ := api.Send(Outgoing(chat, Note(StatsFailed), NoMarkup));
        return;
      }
      var blocked, _ := store.BlockedIds();
      var _ := api.Send(StatsReport(chat, |known|, |blocked|));
    }

    // -------------------------------------------------------------------------
    // Button presses

    /** handleCallbackQuery: by the payload's decoding. */
    method HandleCallbackQuery(q: CallbackQuery)
      requires Wired()
      modifies store, states, api, broadcast
      ensures CallbackServed(q, old(Now()))
    {
      match DecodeCallback(q.data)
      case Unblock(id) =>
        UnblockUser(q, id);
      case ShowPage(n) =>
        TurnPage(q, n);
      case Block(id) =>
        BlockUser(q, id);
      case Ignore =>
      case Delegate =>
        PassOn(q);
    }

    /** Unblocks the user, acknowledges, and shows the first page of the list again. */
    method UnblockUser(q: CallbackQuery, id: int)
      modifies store, api
      ensures Unblocked(q, id, old(Now()))
    {
      var err := store.RemoveBlocked(id);
      if err {
        return;
      }
      api.Answer(q.id, UnblockedAck);
      ListBlocked(q.chat, 1);
    }

    /** Shows the requested page, then acknowledges. */
    method TurnPage(q: CallbackQuery, n: int)
      modifies api
      ensures Paged(q, n, old(Now()))
    {
      ListBlocked(q.chat, n);
      api.Answer(q.id, Silent);
    }

    /** Blocks the user and acknowledges. */
    method BlockUser(q: CallbackQuery, id: int)
      modifies store, api
      ensures Blocked(q, id, old(Now()))
    {
      var err := store.AddBlocked(id);
      if !err {
        api.Answer(q.id, BlockedAck);
      }
    }

    /** A payload of no dispatcher kind: the broadcast builder's, or acknowledged silently. */
    method PassOn(q: CallbackQuery)
      requires Wired()
      modifies states, api, broadcast
      ensures Delegated(q, old(Now()))
    {
      var taken := broadcast.HandleCallbackQuery(q);
      if !taken {
        api.Answer(q.id, Silent);
      }
    }

    // -------------------------------------------------------------------------
    // The user path

    /** handleUserMessage. */
    method HandleUserMessage(m: Message)
      requires Wired()
      modifies api
      ensures UserServed(m, old(Now()))
    {
      var isBlocked, err := store.IsBlocked(m.from.id);
      if err {
        return;
      }
      if isBlocked {
        var _ := api.Send(Outgoing(m.chat, Note(YouAreBlocked), NoMarkup));
        return;
      }
      if m.command == Some("start") {
        GreetUser(m);
      } else {
        RouteUserMessage(m);
        assert api.acts == old(api.acts) + UserActs(m, admins, forwardTo, StartGreeting(m.chat, store.config, false, false));
      }
    }

    /** A user's /start: the command menu, then the greeting. */
    method GreetUser(m: Message)
      requires Wired() && m.command == Some("start")
      modifies api
      ensures exists textFailed: bool, specFailed: bool ::
                && (store.healthy ==> !textFailed && !specFailed)
                && api.acts == old(api.acts) + UserActs(m, admins, forwardTo, StartGreeting(m.chat, store.config, textFailed, specFailed))
    {
      Greet(m.chat);
      ghost var textFailed: bool, specFailed: bool :|
        && (store.healthy ==> !textFailed && !specFailed)
        && api.acts == old(api.acts) + [SetCommandMenu(m.chat, m.chat in admins), SendMsg(StartGreeting(m.chat, store.config, textFailed, specFailed))];
      assert api.acts == old(api.acts) + UserActs(m, admins, forwardTo, StartGreeting(m.chat, store.config, textFailed, specFailed));
    }

    /** Sends the one or two copies of a forwarded message, in order. */
    method SendCopies(copies: seq<Outgoing>)
      requires 1 <= |copies| <= 2
      modifies api
      ensures api.acts == old(api.acts) + Sends(copies)
    {
      if |copies| == 2 {
        var _ := api.Send(copies[0]);
      }
      var _ := api.Send(copies[|copies| - 1]);
      assert Sends(copies) == if |copies| == 2 then [SendMsg(copies[0]), SendMsg(copies[1])] else [SendMsg(copies[0])];
    }

    /**
      Any other message of a user who is not blocked: its copies to the admin chat and the
      receipt, or the notice that no admin chat is configured.
    */
    method RouteUserMessage(m: Message)
      requires m.command != Some("start") && FormatInt(m.from.id) !in store.blocked
      modifies api
      ensures api.acts == old(api.acts) + UserActs(m, admins, forwardTo, StartGreeting(m.chat, store.config, false, false))
    {
      if forwardTo != 0 {
        var again, _ := store.IsBlocked(m.from.id);
        assert !again;
        var copies := ForwardCopies(m, forwardTo, again);
        SendCopies(copies);
        ghost var sent := api.acts;
        var _ := api.Send(Outgoing(m.chat, Note(MessageReceived), NoMarkup));
        assert api.acts == sent + [SendMsg(Outgoing(m.chat, Note(MessageReceived), NoMarkup))];
      } else {
        var _ := api.Send(Outgoing(m.chat, Note(CannotRoute), NoMarkup));
      }
    }
  }

  /** The page row of handleListBlocked, built button by button. */
  method NavButtons(p: int, total: int) returns (nav: seq<KeyButton>)
    requires 1 <= p <= total && total > 1
    ensures nav == NavRow(p, total) && |nav| > 0
  {
    nav := [];
    if p > 1 {
      nav := nav + [DataButton("上一页", PrevPrefix + FormatInt(p - 1))];
    }
    if p < total {
      nav := nav + [DataButton("下一页", NextPrefix + FormatInt(p + 1))];
    }
  }

  /** One more profile read, for the next member, keeps the reads matching the members. */
  lemma ReadOneMore(read: seq<Profile>, current: seq<string>, i: int, profiles: map<int, Profile>, p: Profile, healthy: bool)
    requires 0 <= i < |current| && |read| == i
    requires healthy ==> forall k :: 0 <= k < i ==> read[k] == ProfileOf(profiles, ProfileId(current[k]))
    requires healthy ==> p == ProfileOf(profiles, ProfileId(current[i]))
    ensures healthy ==> forall k :: 0 <= k < i + 1 ==> (read + [p])[k] == ProfileOf(profiles, ProfileId(current[k]))
  {
  }

  /** Profiles read one by one for the members of a page are the page's profiles. */
  lemma ReadProfiles(ids: seq<string>, page: int, profiles: map<int, Profile>, current: seq<string>, read: seq<Profile>)
    requires |ids| > 0
    requires var p := ClampPage(page, TotalPages(|ids|));
      0 <= PageStart(p) <= PageEnd(p, |ids|) <= |ids| && current == ids[PageStart(p)..PageEnd(p, |ids|)]
    requires |read| == |current|
    requires forall k :: 0 <= k < |current| ==> read[k] == ProfileOf(profiles, ProfileId(current[k]))
    ensures read == PageProfiles(ids, page, profiles)
  {
    var p := ClampPage(page, TotalPages(|ids|));
    var want := PageProfiles(ids, page, profiles);
    forall k | 0 <= k < |read|
      ensures read[k] == want[k]
    {
      assert current[k] == ids[PageStart(p) + k];
    }
  }

  /** A blocked user's message adds nothing but the blocked notice to the transport log. */
  lemma BlockedUserOnlyNotified(b: BotInstance, m: Message, s0: Snapshot)
    requires m.from.id !in b.admins && b.Dispatched(m, s0)
    requires FormatInt(m.from.id) in b.store.blocked
    ensures b.api.acts == s0.acts || b.api.acts == s0.acts + [SendMsg(Outgoing(m.chat, Note(YouAreBlocked), NoMarkup))]
    ensures forall k :: |s0.acts| <= k < |b.api.acts| ==> b.api.acts[k].SendMsg? && b.api.acts[k].msg.chat == m.chat
  {
  }

  /**
    With a relay configured, a user's message is copied to the admin chat, first kind first,
    the last copy carrying the button that blocks its sender, and the sender is acknowledged.
  */
  lemma RelayedToAdmin(m: Message, admins: set<int>, forwardTo: int, greeting: Outgoing)
    requires m.command != Some("start") && forwardTo != 0 && IsInt64(m.from.id)
    ensures var acts := UserActs(m, admins, forwardTo, greeting);
      && 2 <= |acts| <= 3
      && acts[|acts| - 1] == SendMsg(Outgoing(m.chat, Note(MessageReceived), NoMarkup))
      && (forall k :: 0 <= k < |acts| - 1 ==> acts[k].SendMsg? && acts[k].msg.chat == forwardTo)
      && (ForwardKinds(m) != [] ==> KindOf(acts[0].msg.content) == Some(ForwardKinds(m)[0]))
      && acts[|acts| - 2].msg.markup == ForwardKeyboard(m.from, false)
      && DecodeCallback(acts[|acts| - 2].msg.markup.rows[0][1].data) == Block(m.from.id)
  {
    var copies := ForwardCopies(m, forwardTo, false);
    CopiesSpec(m, forwardTo, false, CaptionAsWritten(m.from));
    ForwardKeyboardActsOnSender(m.from, false);
    var acts := UserActs(m, admins, forwardTo, greeting);
    assert acts == Sends(copies) + [SendMsg(Outgoing(m.chat, Note(MessageReceived), NoMarkup))];
    assert acts[|acts| - 2] == SendMsg(copies[|copies| - 1]);
  }
}
