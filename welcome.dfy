/**
  The welcome editor (internal/welcome/welcome.go): /start greets a user with the stored
  welcome text and button keyboard, falling back to a built-in greeting; an admin replaces
  either by a one-step flow that stores whatever text comes next, verbatim.
*/
module Welcome {
  import opened Options
  import opened Text
  import opened Telegram
  import opened Buttons
  import opened Store
  import opened States

  /** What a configuration read gave: the value, or `None` when the read failed. */
  function Fetched(config: map<string, string>, key: string, failed: bool): (r: Option<string>)
    ensures r.None? <==> failed
    ensures r.Some? ==> r.value == ValueOf(config, key)
  {
    if failed then None else Some(ValueOf(config, key))
  }

  /**
    The greeting /start sends: the stored text when it was read and is not empty, the
    built-in greeting otherwise; the stored keyboard only when the spec was read, is not empty
    and parses into at least one row.
  */
  function Greeting(chat: int, text: Option<string>, spec: Option<string>): (m: Outgoing) {
    var content := if text.Some? && text.value != "" then Text(text.value) else Note(DefaultWelcome);
    var rows := if spec.Some? && spec.value != "" then ParseButtons(spec.value) else [];
    Outgoing(chat, content, if |rows| > 0 then Keyboard(rows) else NoMarkup)
  }

  /**
    A spec written from expressible buttons comes back on the greeting as exactly those
    buttons, two per row, whatever the text.
  */
  lemma GreetingShowsButtons(chat: int, text: Option<string>, bs: seq<KeyButton>)
    requires |bs| > 0 && forall k :: 0 <= k < |bs| ==> Expressible(bs[k])
    ensures Greeting(chat, text, Some(Serialize(bs))).markup == Keyboard(Pack(bs))
  {
    SerializeRoundTrip(bs);
    assert |Serialize(bs)| >= |SpecLine(bs[0])| by {
      var parts := SpecLines(bs);
      assert parts[0] == SpecLine(bs[0]);
      assert |Join(parts, '\n')| >= |parts[0]|;
    }
  }

  /** Lines without a bar are accepted when stored but give no keyboard when shown. */
  lemma GreetingDropsBarless(chat: int, text: Option<string>, spec: string)
    requires '|' !in spec
    ensures Greeting(chat, text, Some(spec)).markup == NoMarkup
  {
    var lines := Split(spec, '\n');
    SplitKeepsOut(spec, '\n', '|');
    CollectBarless(lines);
  }

  /** No part of a split holds a character the string does not. */
  lemma {:induction false} SplitKeepsOut(s: string, sep: char, c: char)
    requires c !in s
    ensures forall k :: 0 <= k < |Split(s, sep)| ==> c !in Split(s, sep)[k]
    decreases |s|
  {
    match Cut(s, sep)
    case None =>
    case Some((a, b)) =>
      assert c !in a && c !in b by {
        assert s == a + [sep] + b;
        assert forall i :: 0 <= i < |a| ==> a[i] == s[i];
        assert forall i :: 0 <= i < |b| ==> b[i] == s[|a| + 1 + i];
      }
      SplitKeepsOut(b, sep, c);
      assert Split(s, sep) == [a] + Split(b, sep);
  }

  /** Lines without a bar give no buttons. */
  lemma {:induction false} CollectBarless(lines: seq<string>)
    requires forall k :: 0 <= k < |lines| ==> '|' !in lines[k]
    ensures Collect(lines) == []
  {
    if lines != [] {
      assert '|' !in lines[0];
      CollectBarless(lines[1..]);
    }
  }

  /** What the editor shows as the current value before asking for a new one. */
  function Current(value: Option<string>): (s: Shown)
    ensures s == Unreadable <==> value.None?
    ensures s == NothingStored <==> value == Some("")
    ensures s.Stored? ==> value == Some(s.value) && s.value != ""
  {
    match value
    case None => Unreadable
    case Some(v) => if v == "" then NothingStored else Stored(v)
  }

  /** welcome.Manager: the API, the store and the shared state table. */
  class Manager {
    const api: Transport
    const store: KeyValueStore
    const states: StateTable

    constructor (api: Transport, store: KeyValueStore, states: StateTable)
      ensures this.api == api && this.store == store && this.states == states
    {
      this.api, this.store, this.states := api, store, states;
    }

    /** HandleStartCommand: reads the text and the spec, then sends the greeting. */
    method HandleStartCommand(chat: int)
      modifies api
      ensures exists textFailed: bool, specFailed: bool ::
                && (store.healthy ==> !textFailed && !specFailed)
                && api.acts == old(api.acts) + [SendMsg(Greeting(chat,
                     Fetched(store.config, WelcomeMessageKey, textFailed),
                     Fetched(store.config, WelcomeButtonsKey, specFailed)))]
    {
      var text, textFailed := store.GetConfig(WelcomeMessageKey);
      var spec, specFailed := store.GetConfig(WelcomeButtonsKey);
      var content := if !textFailed && text != "" then Text(text) else Note(DefaultWelcome);
      var rows := if !specFailed && spec != "" then ParseButtons(spec) else [];
      var _ := api.Send(Outgoing(chat, content, if |rows| > 0 then Keyboard(rows) else NoMarkup));
      assert api.acts == old(api.acts) + [SendMsg(Greeting(chat,
        Fetched(store.config, WelcomeMessageKey, textFailed), Fetched(store.config, WelcomeButtonsKey, specFailed)))];
    }

    /** StartSetWelcomeProcess: shows the current text and waits for the new one. */
    method StartSetWelcomeProcess(chat: int)
      modifies states, api
      ensures states.tags == old(states.tags)[chat := AwaitingWelcomeMessage]
      ensures exists failed: bool ::
                && (store.healthy ==> !failed)
                && api.acts == old(api.acts)
                     + [SendMsg(Outgoing(chat, Note(CurrentWelcome(Current(Fetched(store.config, WelcomeMessageKey, failed)))), NoMarkup))]
    {
      var value, failed := store.GetConfig(WelcomeMessageKey);
      var shown := if failed then Unreadable else if value == "" then NothingStored else Stored(value);
      var _ := api.Send(Outgoing(chat, Note(CurrentWelcome(shown)), NoMarkup));
      states.tags := states.tags[chat := AwaitingWelcomeMessage];
      assert shown == Current(Fetched(store.config, WelcomeMessageKey, failed));
    }

    /** StartSetButtonsProcess: shows the current spec and waits for the new one. */
    method StartSetButtonsProcess(chat: int)
      modifies states, api
      ensures states.tags == old(states.tags)[chat := AwaitingWelcomeButtons]
      ensures exists failed: bool ::
                && (store.healthy ==> !failed)
                && api.acts == old(api.acts)
                     + [SendMsg(Outgoing(chat, Note(CurrentButtons(Current(Fetched(store.config, WelcomeButtonsKey, failed)))), NoMarkup))]
    {
      var value, failed := store.GetConfig(WelcomeButtonsKey);
      var shown := if failed then Unreadable else if value == "" then NothingStored else Stored(value);
      var _ := api.Send(Outgoing(chat, Note(CurrentButtons(shown)), NoMarkup));
      states.tags := states.tags[chat := AwaitingWelcomeButtons];
      assert shown == Current(Fetched(store.config, WelcomeButtonsKey, failed));
    }

    /**
      HandleAdminMessageInput: the flow is chosen by the sender's tag, and the input is taken
      exactly when that tag is one of the editor's two.
    */
    method HandleAdminMessageInput(msg: Message) returns (handled: bool)
      modifies store, states, api
      ensures handled <==> msg.from.id in old(states.tags) && IsWelcomeTag(old(states.tags)[msg.from.id])
      ensures !handled ==>
                && api.acts == old(api.acts) && states.tags == old(states.tags)
                && store.config == old(store.config)
      ensures handled && old(states.tags)[msg.from.id] == AwaitingWelcomeMessage ==>
                Saved(old(store.config), old(states.tags), old(api.acts), msg, WelcomeMessageKey)
      ensures handled && old(states.tags)[msg.from.id] == AwaitingWelcomeButtons ==>
                Saved(old(store.config), old(states.tags), old(api.acts), msg, WelcomeButtonsKey)
      ensures store.known == old(store.known) && store.blocked == old(store.blocked)
      ensures store.profiles == old(store.profiles)
    {
      var sender := msg.from.id;
      if sender !in states.tags {
        return false;
      }
      var state := states.tags[sender];
      if state == AwaitingWelcomeMessage {
        HandleInput(msg, WelcomeMessageKey);
        return true;
      } else if state == AwaitingWelcomeButtons {
        HandleInput(msg, WelcomeButtonsKey);
        return true;
      }
      return false;
    }

    /**
      handleWelcomeMessageInput and handleWelcomeButtonsInput, which differ only in the key
      and the notices: the text is stored verbatim; only when that succeeds is the chat's tag
      reset, the change confirmed and the new greeting shown.
    */
    method HandleInput(msg: Message, key: string)
      requires key == WelcomeMessageKey || key == WelcomeButtonsKey
      modifies store, states, api
      ensures Saved(old(store.config), old(states.tags), old(api.acts), msg, key)
      ensures store.known == old(store.known) && store.blocked == old(store.blocked)
      ensures store.profiles == old(store.profiles)
    {
      var chat := msg.chat;
      var failed := store.SetConfig(key, msg.text);
      if failed {
        var _ := api.Send(Outgoing(chat, Note(if key == WelcomeMessageKey then SaveWelcomeFailed else SaveButtonsFailed), NoMarkup));
        return;
      }
      states.tags := states.tags[chat := StateNone];
      var _ := api.Send(Outgoing(chat, Note(if key == WelcomeMessageKey then WelcomeSaved else ButtonsSaved), NoMarkup));
      ghost var confirmed := api.acts;
      HandleStartCommand(chat);
      ghost var textFailed: bool, specFailed: bool :| && (store.healthy ==> !textFailed && !specFailed)
        && api.acts == confirmed + [SendMsg(Greeting(chat,
             Fetched(store.config, WelcomeMessageKey, textFailed), Fetched(store.config, WelcomeButtonsKey, specFailed)))];
      assert api.acts == old(api.acts) + [SendMsg(Outgoing(chat, Note(if key == WelcomeMessageKey then WelcomeSaved else ButtonsSaved), NoMarkup)),
        SendMsg(Greeting(chat, Fetched(store.config, WelcomeMessageKey, textFailed), Fetched(store.config, WelcomeButtonsKey, specFailed)))];
    }

    /**
      The outcome of storing `msg.text` under `key` (`config`, `tags` and `acts` are the
      state before): either the write failed, nothing else changed and the failure is
      reported; or the key holds the text verbatim, the chat's tag is StateNone, and the
      confirmation is followed by the greeting as it now reads.
    */
    ghost predicate Saved(config: map<string, string>, tags: map<int, int>, acts: seq<Act>, msg: Message, key: string)
      requires key == WelcomeMessageKey || key == WelcomeButtonsKey
      reads this, store, states, api
    {
      || (&& !store.healthy && store.config == config && states.tags == tags
          && api.acts == acts + [SendMsg(Outgoing(msg.chat,
               Note(if key == WelcomeMessageKey then SaveWelcomeFailed else SaveButtonsFailed), NoMarkup))])
      || (&& store.config == config[key := msg.text]
          && states.tags == tags[msg.chat := StateNone]
          && exists textFailed: bool, specFailed: bool ::
               && (store.healthy ==> !textFailed && !specFailed)
               && api.acts == acts + [SendMsg(Outgoing(msg.chat, Note(if key == WelcomeMessageKey then WelcomeSaved else ButtonsSaved), NoMarkup)),
                    SendMsg(Greeting(msg.chat,
                      Fetched(store.config, WelcomeMessageKey, textFailed),
                      Fetched(store.config, WelcomeButtonsKey, specFailed)))])
    }
  }

  /**
    With a store that answers, saving a non-empty welcome text makes the greeting that follows
    show exactly that text.
  */
  lemma SavedTextGreets(m: Manager, config: map<string, string>, tags: map<int, int>, acts: seq<Act>, msg: Message)
    requires m.store.healthy && msg.text != ""
    requires m.Saved(config, tags, acts, msg, WelcomeMessageKey)
    ensures |m.api.acts| == |acts| + 2
    ensures m.api.acts[|acts| + 1].SendMsg? && m.api.acts[|acts| + 1].msg.content == Text(msg.text)
  {
    var textFailed: bool, specFailed: bool :| && (m.store.healthy ==> !textFailed && !specFailed)
      && m.api.acts == acts + [SendMsg(Outgoing(msg.chat, Note(WelcomeSaved), NoMarkup)),
           SendMsg(Greeting(msg.chat,
             Fetched(m.store.config, WelcomeMessageKey, textFailed),
             Fetched(m.store.config, WelcomeButtonsKey, specFailed)))];
    assert ValueOf(m.store.config, WelcomeMessageKey) == msg.text;
  }
}
