/**
  The broadcast builder (internal/broadcast/broadcasts.go): an admin composes a draft in three
  steps (text, then media, then buttons), steered by inline-keyboard callbacks, previews it and
  sends it to every known user. The draft and the ID of the last builder menu are kept per chat;
  the step is the chat's tag in the shared state table.
*/
module Broadcast {
  import opened Options
  import opened Text
  import opened Telegram
  import opened Buttons
  import opened Store
  import opened States

  /** A broadcast draft (broadcast.Message): `kind` is "photo" or "video" when media is set. */
  datatype Draft = Draft(text: string, mediaId: string, kind: string, buttons: Rows)

  const EmptyDraft: Draft := Draft("", "", "", [])

  /** A draft can be previewed and sent once it has text or media. */
  predicate HasContent(d: Draft) {
    d.text != "" || d.mediaId != ""
  }

  // ---------------------------------------------------------------------------
  // Callback payloads and keyboards

  const Prefix: string := "bbuild_"
  const SetTextAction: string := "bbuild_set_text"
  const SetMediaAction: string := "bbuild_set_media"
  const SkipMediaAction: string := "bbuild_skip_media"
  const SetButtonsAction: string := "bbuild_set_buttons"
  const SkipButtonsAction: string := "bbuild_skip_buttons"
  const PreviewAction: string := "bbuild_preview"
  const CancelAction: string := "bbuild_cancel"
  const SendAction: string := "bbuild_send"

  /** What a builder payload asks for. */
  datatype Action =
    | SetText | SetMedia | SkipMedia | SetButtons | SkipButtons | Preview | Cancel | SendAll
    | Unrecognised

  /** The switch over the payload in HandleCallbackQuery. */
  function ActionOf(data: string): Action {
    if data == SetTextAction then SetText
    else if data == SetMediaAction then SetMedia
    else if data == SkipMediaAction then SkipMedia
    else if data == SetButtonsAction then SetButtons
    else if data == SkipButtonsAction then SkipButtons
    else if data == PreviewAction then Preview
    else if data == CancelAction then Cancel
    else if data == SendAction then SendAll
    else Unrecognised
  }

  /** The callback payloads a keyboard offers. */
  function Actions(rows: Rows): set<string> {
    set k, j | 0 <= k < |rows| && 0 <= j < |rows[k]| && rows[k][j].DataButton? :: rows[k][j].data
  }

  function CancelKeyboard(): Markup {
    Keyboard([[DataButton("❌ 取消广播", CancelAction)]])
  }

  function SkipMediaKeyboard(): Markup {
    Keyboard([[DataButton("⏭️ 跳过媒体", SkipMediaAction)]])
  }

  function SkipButtonsKeyboard(): Markup {
    Keyboard([[DataButton("⏭️ 跳过按钮", SkipButtonsAction)]])
  }

  /**
    getBroadcastBuilderKeyboard: the two edit rows and the cancel row always; the preview and
    send rows exactly when the draft has content, between them.
  */
  function BuilderKeyboard(d: Draft): (rows: Rows)
    ensures |rows| == if HasContent(d) then 5 else 3
    ensures Actions(rows) ==
              {SetTextAction, SetMediaAction, SetButtonsAction, CancelAction}
              + (if HasContent(d) then {PreviewAction, SendAction} else {})
    ensures rows[|rows| - 1] == [DataButton("❌ 取消", CancelAction)]
  {
    var edit := [
      [DataButton("1️⃣ 修改文本", SetTextAction), DataButton("2️⃣ 修改媒体", SetMediaAction)],
      [DataButton("3️⃣ 修改按钮", SetButtonsAction)]];
    var send := [[DataButton("👀 发送预览", PreviewAction)], [DataButton("🚀 确认发送", SendAction)]];
    var cancel := [[DataButton("❌ 取消", CancelAction)]];
    var rows := edit + (if HasContent(d) then send else []) + cancel;
    assert rows[0][0].data == SetTextAction && rows[0][1].data == SetMediaAction;
    assert rows[1][0].data == SetButtonsAction;
    assert rows[|rows| - 1][0].data == CancelAction;
    if HasContent(d) then
      assert rows[2][0].data == PreviewAction && rows[3][0].data == SendAction;
      rows
    else
      rows
  }

  /** The builder menu: a summary of the draft and the builder keyboard. */
  function Menu(chat: int, d: Draft): Outgoing {
    Outgoing(
      chat,
      Note(BuilderMenu(d.text, if d.mediaId != "" then Some(d.kind) else None, |d.buttons| > 0)),
      Keyboard(BuilderKeyboard(d)))
  }

  /** Sending the menu first deletes the previous menu, when one is recorded. */
  function MenuActs(chat: int, prompt: int, d: Draft): seq<Act> {
    (if prompt != 0 then [DeleteMsg(chat, prompt)] else []) + [SendMsg(Menu(chat, d))]
  }

  /** The prompt map after the menu send: the new menu's ID is recorded only when it was delivered. */
  function AfterMenu(prompts: map<int, int>, chat: int, r: SendResult): map<int, int> {
    match r
    case Delivered(id) => prompts[chat := id]
    case Failed => prompts
  }

  // ---------------------------------------------------------------------------
  // Delivery

  const Marker: string := "📢 "

  /**
    sendComplexMessage's message: media with the marked text as caption, or the marked text
    alone; the draft's buttons are attached only when there is at least one row. A media kind
    other than photo or video, and a draft with neither text nor media, give no message.
  */
  function Compose(target: int, d: Draft): (m: Option<Outgoing>)
    ensures m.Some? <==> HasContent(d) && (d.mediaId != "" ==> d.kind == "photo" || d.kind == "video")
    ensures m.Some? ==> m.value.chat == target
    ensures m.Some? ==> m.value.markup == if |d.buttons| > 0 then Keyboard(d.buttons) else NoMarkup
    ensures m.Some? ==> m.value.content in {
              Photo(d.mediaId, Marker + d.text), Video(d.mediaId, Marker + d.text), Text(Marker + d.text)}
    ensures m.Some? ==>
              && (m.value.content == Photo(d.mediaId, Marker + d.text) <==> d.mediaId != "" && d.kind == "photo")
              && (m.value.content == Video(d.mediaId, Marker + d.text) <==> d.mediaId != "" && d.kind == "video")
              && (m.value.content == Text(Marker + d.text) <==> d.mediaId == "")
  {
    var markup := if |d.buttons| > 0 then Keyboard(d.buttons) else NoMarkup;
    if d.mediaId != "" then
      if d.kind == "photo" then Some(Outgoing(target, Photo(d.mediaId, Marker + d.text), markup))
      else if d.kind == "video" then Some(Outgoing(target, Video(d.mediaId, Marker + d.text), markup))
      else None
    else if d.text != "" then Some(Outgoing(target, Text(Marker + d.text), markup))
    else None
  }

  /** The API call one delivery makes: a send of the composed message, or nothing. */
  function Deliver(target: int, d: Draft): seq<Act> {
    match Compose(target, d)
    case Some(m) => [SendMsg(m)]
    case None => []
  }

  /**
    The user ID a stored member names: the value ParseInt returns with its error dropped, so a
    malformed member names 0 and an out-of-range one the nearest 64-bit bound.
  */
  function TargetOf(id: string): int {
    ParseIntValue(id)
  }

  /** The IDs the fan-out delivers to, in listing order: every member that parses to a non-zero ID. */
  function Targets(ids: seq<string>): (ts: seq<int>)
    ensures |ts| <= |ids|
    ensures forall k :: 0 <= k < |ts| ==> ts[k] != 0
  {
    if ids == [] then []
    else
      var t := TargetOf(ids[|ids| - 1]);
      Targets(ids[..|ids| - 1]) + (if t != 0 then [t] else [])
  }

  /** Every member whose ID parses to something other than 0 is a target. */
  lemma {:induction false} TargetsComplete(ids: seq<string>, k: nat)
    requires k < |ids| && TargetOf(ids[k]) != 0
    ensures TargetOf(ids[k]) in Targets(ids)
  {
    var n := |ids| - 1;
    if k < n {
      TargetsComplete(ids[..n], k);
      assert ids[..n][k] == ids[k];
    }
  }

  /** Every target is the parsed ID of some member. */
  lemma {:induction false} TargetsSound(ids: seq<string>, t: int) returns (k: nat)
    requires t in Targets(ids)
    ensures k < |ids| && TargetOf(ids[k]) == t
  {
    var n := |ids| - 1;
    if t in Targets(ids[..n]) {
      k := TargetsSound(ids[..n], t);
      assert ids[..n][k] == ids[k];
    } else {
      k := n;
    }
  }

  /** The sends of a fan-out over `targets`, in order. */
  function Deliveries(targets: seq<int>, d: Draft): (acts: seq<Act>)
    ensures |acts| <= |targets|
  {
    if targets == [] then []
    else Deliveries(targets[..|targets| - 1], d) + Deliver(targets[|targets| - 1], d)
  }

  /** What the fan-out sends for one listed member: the draft, when the member names a user. */
  function DeliverTo(id: string, d: Draft): seq<Act> {
    if TargetOf(id) != 0 then Deliver(TargetOf(id), d) else []
  }

  /** Extending the listing by one member extends the fan-out by that member's delivery. */
  lemma DeliveriesStep(ids: seq<string>, i: nat, d: Draft)
    requires i < |ids|
    ensures Deliveries(Targets(ids[..i + 1]), d) == Deliveries(Targets(ids[..i]), d) + DeliverTo(ids[i], d)
  {
    assert ids[..i + 1][..i] == ids[..i];
    if TargetOf(ids[i]) == 0 {
      assert Targets(ids[..i + 1]) == Targets(ids[..i]);
      assert Deliveries(Targets(ids[..i]), d) + [] == Deliveries(Targets(ids[..i]), d);
    }
  }

  /** What the preview sends: a refusal for an empty draft, else a header and the draft itself. */
  function PreviewActs(chat: int, d: Draft): seq<Act> {
    if !HasContent(d) then [SendMsg(Outgoing(chat, Note(PreviewEmpty), NoMarkup))]
    else [SendMsg(Outgoing(chat, Note(PreviewHeader), NoMarkup))] + Deliver(chat, d)
  }

  /**
    The fan-out over the listing `ids` went out after `before`, followed by the report to
    `chat`, whose count is the number of those sends that were delivered.
  */
  predicate Reported(before: seq<Act>, after: seq<Act>, results0: seq<SendResult>, results: seq<SendResult>,
    chat: int, d: Draft, ids: seq<string>)
  {
    var sent := before + Deliveries(Targets(ids), d);
    && |after| == |sent| + 1 && after[..|sent|] == sent
    && |results| == |results0| + |Deliveries(Targets(ids), d)| + 1 && results[..|results0|] == results0
    && after[|sent|] == SendMsg(Outgoing(chat, Note(BroadcastDone(Successes(results[|results0|..|results| - 1]))), NoMarkup))
  }

  /** The success count of a report never exceeds the number of targets. */
  lemma ReportBounded(before: seq<Act>, after: seq<Act>, results0: seq<SendResult>, results: seq<SendResult>,
    chat: int, d: Draft, ids: seq<string>)
    requires Reported(before, after, results0, results, chat, d, ids)
    ensures var sent := before + Deliveries(Targets(ids), d);
      after[|sent|].msg.content.notice.count <= |Targets(ids)| <= |ids|
  {
    var sent := before + Deliveries(Targets(ids), d);
    assert |results[|results0|..|results| - 1]| == |Deliveries(Targets(ids), d)|;
  }

  /** The results log grew by the result of exactly one send. */
  predicate OneMoreResult(results0: seq<SendResult>, results: seq<SendResult>) {
    |results| == |results0| + 1 && results[..|results0|] == results0
  }

  /**
    What executeBroadcast does to the API log and the send results: an empty draft is
    refused; otherwise, when the store fails, a failed user-list read may be reported; and
    otherwise the draft goes to every target of some listing of the known users, followed by
    the report of how many deliveries succeeded.
  */
  ghost predicate Executed(before: seq<Act>, after: seq<Act>, results0: seq<SendResult>, results: seq<SendResult>,
    chat: int, d: Draft, known: set<string>, healthy: bool)
  {
    if !HasContent(d) then
      && after == before + [SendMsg(Outgoing(chat, Note(SendEmpty), NoMarkup))]
      && OneMoreResult(results0, results)
    else
      || (&& !healthy
          && after == before + [SendMsg(Outgoing(chat, Note(UserListFailed), NoMarkup))]
          && OneMoreResult(results0, results))
      || exists ids :: Lists(ids, known) && Reported(before, after, results0, results, chat, d, ids)
  }

  // ---------------------------------------------------------------------------
  // Steps as functions of the draft

  /** The text step: empty text is refused; otherwise only the text changes. */
  function WithText(d: Draft, text: string): Option<Draft> {
    if text == "" then None else Some(d.(text := text))
  }

  /** The media step: the largest photo size wins over a video; anything else is refused. */
  function WithMedia(d: Draft, m: Message): Option<Draft> {
    if |m.photo| > 0 then Some(d.(mediaId := m.photo[|m.photo| - 1], kind := "photo"))
    else if m.video.Some? then Some(d.(mediaId := m.video.value, kind := "video"))
    else None
  }

  // ---------------------------------------------------------------------------
  // The button-spec validator

  /** Why a line of a button spec is refused. */
  datatype Fault = Malformed(content: string) | BadUrl(url: string)

  /** A refused line, numbered from 1 among all lines, blank ones included. */
  datatype LineFault = LineFault(line: nat, fault: Fault)

  predicate HasHttpScheme(url: string) {
    "http://" <= url || "https://" <= url
  }

  /**
    The validator's verdict on one line: a blank line passes; a line must have a `|` with a
    non-blank label before it and a non-blank URL after it, and the URL, with surrounding
    backticks removed, must start with http:// or https://.
  */
  function CheckLine(raw: string): Option<Fault> {
    var line := TrimSpace(raw);
    if line == [] then None
    else match Cut(line, '|')
      case None => Some(Malformed(line))
      case Some((before, after)) =>
        if TrimSpace(before) == [] || TrimSpace(after) == [] then Some(Malformed(line))
        else
          var url := Trim(TrimSpace(after), Backtick);
          if HasHttpScheme(url) then None else Some(BadUrl(url))
  }

  /** The verdict on each line, in order. */
  function Verdicts(lines: seq<string>): (vs: seq<Option<Fault>>)
    ensures |vs| == |lines| && forall k :: 0 <= k < |lines| ==> vs[k] == CheckLine(lines[k])
  {
    seq(|lines|, k requires 0 <= k < |lines| => CheckLine(lines[k]))
  }

  /** The first refusal among the verdicts at or after index `i`, numbered from 1. */
  function FirstFaultFrom(verdicts: seq<Option<Fault>>, i: nat): Option<LineFault>
    requires i <= |verdicts|
    decreases |verdicts| - i
  {
    if i == |verdicts| then None
    else match verdicts[i]
      case Some(f) => Some(LineFault(i + 1, f))
      case None => FirstFaultFrom(verdicts, i + 1)
  }

  /**
    The search finds nothing exactly when every verdict from `i` on is a pass; otherwise it
    reports the first refusal, numbered from 1, with its fault.
  */
  lemma {:induction false} FirstFaultFromSpec(verdicts: seq<Option<Fault>>, i: nat)
    requires i <= |verdicts|
    ensures var r := FirstFaultFrom(verdicts, i);
      && (r.None? <==> forall k :: i <= k < |verdicts| ==> verdicts[k].None?)
      && (r.Some? ==>
            && i < r.value.line <= |verdicts|
            && verdicts[r.value.line - 1] == Some(r.value.fault)
            && forall k :: i <= k < r.value.line - 1 ==> verdicts[k].None?)
    decreases |verdicts| - i
  {
    if i < |verdicts| && verdicts[i].None? {
      FirstFaultFromSpec(verdicts, i + 1);
    }
  }

  /** The first refused line of a spec, if any. */
  function FirstFault(text: string): Option<LineFault> {
    FirstFaultFrom(Verdicts(Split(text, '\n')), 0)
  }

  /**
    A spec is refused exactly when one of its lines fails the check, and the refusal names the
    first such line, counted from 1 with blank lines included.
  */
  lemma FirstFaultSpec(text: string, lines: seq<string>)
    requires lines == Split(text, '\n')
    ensures FirstFault(text).None? <==> forall k :: 0 <= k < |lines| ==> CheckLine(lines[k]).None?
    ensures FirstFault(text).Some? ==>
              var f := FirstFault(text).value;
              && 1 <= f.line <= |lines|
              && CheckLine(lines[f.line - 1]) == Some(f.fault)
              && forall k :: 0 <= k < f.line - 1 ==> CheckLine(lines[k]).None?
  {
    var verdicts := Verdicts(lines);
    assert FirstFault(text) == FirstFaultFrom(verdicts, 0);
    FirstFaultFromSpec(verdicts, 0);
  }

  /** The validation loop of the buttons step: stops at the first refused line. */
  method ValidateButtonSpec(text: string) returns (fault: Option<LineFault>)
    ensures fault == FirstFault(text)
  {
    var lines := Split(text, '\n');
    ghost var verdicts := Verdicts(lines);
    var i := 0;
    while i < |lines|
      invariant 0 <= i <= |lines|
      invariant FirstFaultFrom(verdicts, i) == FirstFaultFrom(verdicts, 0)
    {
      var f := CheckLine(lines[i]);
      if f.Some? {
        return Some(LineFault(i + 1, f.value));
      }
      i := i + 1;
    }
    return None;
  }

  /** The message reporting a refused line. */
  function FaultNotice(f: LineFault): Notice {
    match f.fault
    case Malformed(content) => MalformedButtonLine(f.line, content)
    case BadUrl(url) => InvalidButtonUrl(f.line, url)
  }

  /** The number of lines that are not blank. */
  function NonBlank(lines: seq<string>): nat {
    if lines == [] then 0 else (if TrimSpace(lines[0]) == [] then 0 else 1) + NonBlank(lines[1..])
  }

  /** A button the validator vouches for: a link with a label and an http(s) URL. */
  predicate Vetted(b: KeyButton) {
    b.UrlButton? && b.text != "" && HasHttpScheme(b.url)
  }

  /** Lines the validator accepts contribute one vetted button per non-blank line. */
  lemma {:induction false} CollectChecked(lines: seq<string>)
    requires forall k :: 0 <= k < |lines| ==> CheckLine(lines[k]).None?
    ensures |Collect(lines)| == NonBlank(lines)
    ensures forall j :: 0 <= j < |Collect(lines)| ==> Vetted(Collect(lines)[j])
  {
    if lines != [] {
      assert forall k :: 0 <= k < |lines[1..]| ==> lines[1..][k] == lines[k + 1];
      CollectChecked(lines[1..]);
      CheckedLine(lines[0]);
      var head, rest := LineButtons(lines[0]), Collect(lines[1..]);
      assert Collect(lines) == head + rest;
      assert NonBlank(lines) == |head| + NonBlank(lines[1..]);
      forall j | 0 <= j < |head + rest|
        ensures Vetted((head + rest)[j])
      {
        if j >= |head| {
          assert (head + rest)[j] == rest[j - |head|];
        }
      }
    }
  }

  /** A line the validator accepts yields a vetted button, unless it is blank. */
  lemma CheckedLine(raw: string)
    requires CheckLine(raw).None?
    ensures |LineButtons(raw)| == if TrimSpace(raw) == [] then 0 else 1
    ensures forall j :: 0 <= j < |LineButtons(raw)| ==> Vetted(LineButtons(raw)[j])
  {
  }

  /**
    A spec the validator accepts parses into exactly one vetted button per non-blank line, so
    every button that reaches the draft has a label and an http(s) URL.
  */
  lemma AcceptedSpec(text: string)
    requires FirstFault(text).None?
    ensures |Flatten(ParseButtons(text))| == NonBlank(Split(text, '\n'))
    ensures forall j :: 0 <= j < |Flatten(ParseButtons(text))| ==> Vetted(Flatten(ParseButtons(text))[j])
  {
    FirstFaultSpec(text, Split(text, '\n'));
    var bs := Collect(Split(text, '\n'));
    CollectChecked(Split(text, '\n'));
    assert Flatten(ParseButtons(text)) == bs;
  }

  /** The draft after the buttons step: refused at the first bad line, else the parsed keyboard. */
  function WithButtons(d: Draft, text: string): Option<Draft> {
    if FirstFault(text).Some? then None else Some(d.(buttons := ParseButtons(text)))
  }

  // ---------------------------------------------------------------------------
  // Callbacks as a transition table

  /** What an action does to one chat's entry in a per-chat map. */
  datatype Change<T> = Keep | Put(value: T) | Drop

  function Apply<T>(m: map<int, T>, chat: int, c: Change<T>): map<int, T> {
    match c
    case Keep => m
    case Put(v) => m[chat := v]
    case Drop => m - {chat}
  }

  /** The step an action moves the chat to. */
  function TagChange(a: Action): Change<int> {
    match a
    case SetText => Put(BroadcastAwaitText)
    case SetMedia => Put(BroadcastAwaitMedia)
    case SkipMedia | SetButtons => Put(BroadcastAwaitButtons)
    case SkipButtons | Cancel | SendAll => Put(StateNone)
    case Preview | Unrecognised => Keep
  }

  /** What an action does to the chat's draft `d`. */
  function DraftChange(a: Action, d: Draft): Change<Draft> {
    match a
    case SkipMedia => Put(d.(mediaId := "", kind := ""))
    case SkipButtons => Put(d.(buttons := []))
    case Cancel | SendAll => Drop
    case _ => Keep
  }

  /**
    The API calls an action makes after the silent acknowledgement, given the chat's draft
    `d` and recorded menu `prompt` (the send action's calls depend on the store; see Executed).
  */
  function CallbackActs(q: CallbackQuery, a: Action, d: Draft, prompt: int): seq<Act> {
    match a
    case SetText => [SendMsg(Outgoing(q.chat, Note(AskText), CancelKeyboard()))]
    case SetMedia => [SendMsg(Outgoing(q.chat, Note(AskMedia), SkipMediaKeyboard()))]
    case SkipMedia =>
      [AnswerCallback(q.id, MediaSkippedAck)]
      + [SendMsg(Outgoing(q.chat, Note(MediaSkippedAskButtons), SkipButtonsKeyboard()))]
    case SetButtons => [SendMsg(Outgoing(q.chat, Note(AskButtons), SkipButtonsKeyboard()))]
    case SkipButtons => [AnswerCallback(q.id, ButtonsSkippedAck)] + MenuActs(q.chat, prompt, d.(buttons := []))
    case Preview => PreviewActs(q.chat, d)
    case Cancel => [DeleteMsg(q.chat, q.messageId)] + [SendMsg(Outgoing(q.chat, Note(BroadcastCancelled), NoMarkup))]
    case SendAll => [DeleteMsg(q.chat, q.messageId)]
    case Unrecognised => []
  }

  // ---------------------------------------------------------------------------
  // The manager

  class Manager {
    const api: Transport
    const store: KeyValueStore
    /** The state table shared with the dispatcher and the welcome editor. */
    const states: StateTable
    /** Broadcasts: the draft per chat. */
    var drafts: map<int, Draft>
    /** BroadcastPromptMessageIDs: the message ID of the builder menu last sent per chat. */
    var prompts: map<int, int>

    constructor (api: Transport, store: KeyValueStore, states: StateTable)
      ensures this.api == api && this.store == store && this.states == states
      ensures drafts == map[] && prompts == map[]
    {
      this.api, this.store, this.states := api, store, states;
      drafts, prompts := map[], map[];
    }

    /** The chat's draft; a chat without one reads as the empty draft. */
    function DraftOf(chat: int): Draft
      reads this
    {
      if chat in drafts then drafts[chat] else EmptyDraft
    }

    /** The chat's recorded menu ID; 0 when none is recorded. */
    function PromptOf(chat: int): int
      reads this
    {
      if chat in prompts then prompts[chat] else 0
    }

    /** Resets the chat's draft, waits for the text and asks for it. */
    method StartBroadcastBuilder(chat: int)
      modifies this, states, api
      ensures drafts == old(drafts)[chat := EmptyDraft] && prompts == old(prompts)
      ensures states.tags == old(states.tags)[chat := BroadcastAwaitText]
      ensures api.acts == old(api.acts) + [SendMsg(Outgoing(chat, Note(AskText), CancelKeyboard()))]
    {
      drafts := drafts[chat := EmptyDraft];
      states.tags := states.tags[chat := BroadcastAwaitText];
      var _ := api.Send(Outgoing(chat, Note(AskText), CancelKeyboard()));
    }

    /**
      sendBroadcastBuilderMenu: deletes the previous menu when one is recorded, sends a new one
      and records its ID only when it was delivered.
    */
    method SendBuilderMenu(chat: int)
      modifies this, api
      ensures drafts == old(drafts)
      ensures api.acts == old(api.acts) + MenuActs(chat, old(PromptOf(chat)), old(DraftOf(chat)))
      ensures |api.results| == |old(api.results)| + 1 && api.results[..|old(api.results)|] == old(api.results)
      ensures prompts == AfterMenu(old(prompts), chat, api.results[|api.results| - 1])
    {
      var d := DraftOf(chat);
      if PromptOf(chat) != 0 {
        api.Delete(chat, PromptOf(chat));
      }
      var r := api.Send(Menu(chat, d));
      if r.Delivered? {
        prompts := prompts[chat := r.messageId];
      }
    }

    /**
      sendComplexMessage: sends the composed draft and reports whether it went out; `outcome`
      is the result of the send, or nothing when no send was made. An empty draft reports
      success without sending; a draft with an unsupported media kind reports failure.
    */
    method SendComplexMessage(target: int, d: Draft) returns (ok: bool, ghost outcome: seq<SendResult>)
      modifies api
      ensures api.acts == old(api.acts) + Deliver(target, d)
      ensures api.results == old(api.results) + outcome && |outcome| == |Deliver(target, d)|
      ensures HasContent(d) ==> (ok <==> Successes(outcome) == 1)
      ensures !HasContent(d) ==> ok
    {
      match Compose(target, d)
      case Some(m) =>
        var r := api.Send(m);
        ok, outcome := r.Delivered?, [r];
        assert [r][..0] == [];
      case None =>
        ok, outcome := d.mediaId == "", [];
    }

    /** sendBroadcastPreview: refuses an empty draft; otherwise a header, then the draft as users will see it. */
    method SendPreview(chat: int)
      modifies api
      ensures api.acts == old(api.acts) + PreviewActs(chat, DraftOf(chat))
    {
      var d := DraftOf(chat);
      if !HasContent(d) {
        var _ := api.Send(Outgoing(chat, Note(PreviewEmpty), NoMarkup));
        return;
      }
      var _ := api.Send(Outgoing(chat, Note(PreviewHeader), NoMarkup));
      var _, _ := SendComplexMessage(chat, d);
    }

    /**
      The loop of the fan-out (the goroutine of executeBroadcast, run to completion): each
      listed member that parses to a non-zero ID gets the draft; the count is the number of
      deliveries that went out.
    */
    method FanOut(d: Draft, ids: seq<string>) returns (count: nat)
      requires HasContent(d)
      modifies api
      ensures count <= |Targets(ids)| <= |ids|
      ensures api.acts == old(api.acts) + Deliveries(Targets(ids), d)
      ensures |api.results| == |old(api.results)| + |Deliveries(Targets(ids), d)|
      ensures api.results[..|old(api.results)|] == old(api.results)
      ensures count == Successes(api.results[|old(api.results)|..])
    {
      ghost var acts0, results0 := api.acts, api.results;
      ghost var sent: seq<Act> := [];
      ghost var outcomes: seq<SendResult> := [];
      count := 0;
      var i := 0;
      assert ids[..0] == [];
      while i < |ids|
        invariant 0 <= i <= |ids|
        invariant sent == Deliveries(Targets(ids[..i]), d)
        invariant api.acts == acts0 + sent
        invariant api.results == results0 + outcomes
        invariant |outcomes| == |sent|
        invariant count == Successes(outcomes)
      {
        DeliveriesStep(ids, i, d);
        ghost var step := DeliverTo(ids[i], d);
        var ok, outcome := DeliverOne(ids[i], d);
        ConcatAssoc(acts0, sent, step);
        ConcatAssoc(results0, outcomes, outcome);
        SuccessesConcat(outcomes, outcome);
        outcomes := outcomes + outcome;
        if ok {
          count := count + 1;
        }
        sent := sent + step;
        i := i + 1;
      }
      assert ids[..i] == ids;
      DropPrefix(results0, outcomes);
    }

    /** One member of the fan-out: the draft goes to the ID it names, if that is not 0. */
    method DeliverOne(id: string, d: Draft) returns (ok: bool, ghost outcome: seq<SendResult>)
      requires HasContent(d)
      modifies api
      ensures api.acts == old(api.acts) + DeliverTo(id, d)
      ensures api.results == old(api.results) + outcome && |outcome| == |DeliverTo(id, d)|
      ensures Successes(outcome) == if ok then 1 else 0
    {
      var target := TargetOf(id);
      if target != 0 {
        ok, outcome := SendComplexMessage(target, d);
      } else {
        ok, outcome := false, [];
        assert api.acts == old(api.acts) + [];
      }
    }

    /**
      executeBroadcast: refuses an empty draft; reports a failed user-list read; otherwise runs
      the fan-out over the listed known users.
    */
    method ExecuteBroadcast(chat: int)
      modifies api
      ensures Executed(old(api.acts), api.acts, old(api.results), api.results, chat, DraftOf(chat), store.known, store.healthy)
    {
      var d := DraftOf(chat);
      if !HasContent(d) {
        var _ := api.Send(Outgoing(chat, Note(SendEmpty), NoMarkup));
        return;
      }
      var ids, err := store.KnownIds();
      if err {
        var _ := api.Send(Outgoing(chat, Note(UserListFailed), NoMarkup));
        return;
      }
      ghost var before, results0 := api.acts, api.results;
      var count := FanOut(d, ids);
      ghost var results1 := api.results;
      var r := api.Send(Outgoing(chat, Note(BroadcastDone(count)), NoMarkup));
      DropPrefix(results1, [r]);
      assert api.results[|results0|..|api.results| - 1] == results1[|results0|..];
      ghost var sent := before + Deliveries(Targets(ids), d);
      assert api.acts[..|sent|] == sent;
      assert Reported(before, api.acts, results0, api.results, chat, d, ids);
    }

    /**
      HandleCallbackQuery: payloads without the builder prefix are not the builder's; the others
      are acknowledged silently and then act on the chat the keyboard sits in.
    */
    method HandleCallbackQuery(q: CallbackQuery) returns (handled: bool)
      modifies this, states, api
      ensures handled == (Prefix <= q.data)
      ensures !handled ==>
                && api.acts == old(api.acts) && api.results == old(api.results)
                && states.tags == old(states.tags) && drafts == old(drafts) && prompts == old(prompts)
      ensures handled ==> states.tags == Apply(old(states.tags), q.chat, TagChange(ActionOf(q.data)))
      ensures handled ==> drafts == Apply(old(drafts), q.chat, DraftChange(ActionOf(q.data), old(DraftOf(q.chat))))
      // the menu records its ID only when it went out; cancel and send forget it
      ensures handled && ActionOf(q.data) != SkipButtons ==>
                prompts == Apply(old(prompts), q.chat, if ActionOf(q.data) == Cancel || ActionOf(q.data) == SendAll then Drop else Keep)
      ensures handled && ActionOf(q.data) == SkipButtons ==>
                |api.results| > 0 && prompts == AfterMenu(old(prompts), q.chat, api.results[|api.results| - 1])
      // every builder payload is acknowledged silently first
      ensures handled && ActionOf(q.data) != SendAll ==>
                api.acts == old(api.acts) + [AnswerCallback(q.id, Silent)]
                            + CallbackActs(q, ActionOf(q.data), old(DraftOf(q.chat)), old(PromptOf(q.chat)))
      ensures handled && ActionOf(q.data) == SendAll ==>
                && |api.acts| > 0 && api.acts[|api.acts| - 1] == DeleteMsg(q.chat, q.messageId)
                && Executed(old(api.acts) + [AnswerCallback(q.id, Silent)], api.acts[..|api.acts| - 1],
                     old(api.results), api.results, q.chat, old(DraftOf(q.chat)), store.known, store.healthy)
    {
      if !(Prefix <= q.data) {
        return false;
      }
      handled := true;
      api.Answer(q.id, Silent);
      Perform(q, ActionOf(q.data));
    }

    /** What a recognised payload does once acknowledged, by action. */
    method Perform(q: CallbackQuery, a: Action)
      modifies this, states, api
      ensures states.tags == Apply(old(states.tags), q.chat, TagChange(a))
      ensures drafts == Apply(old(drafts), q.chat, DraftChange(a, old(DraftOf(q.chat))))
      ensures a != SkipButtons ==> prompts == Apply(old(prompts), q.chat, if a == Cancel || a == SendAll then Drop else Keep)
      ensures a == SkipButtons ==>
                |api.results| > 0 && prompts == AfterMenu(old(prompts), q.chat, api.results[|api.results| - 1])
      ensures a != SendAll ==> api.acts == old(api.acts) + CallbackActs(q, a, old(DraftOf(q.chat)), old(PromptOf(q.chat)))
      ensures a == SendAll ==>
                && |api.acts| > 0 && api.acts[|api.acts| - 1] == DeleteMsg(q.chat, q.messageId)
                && Executed(old(api.acts), api.acts[..|api.acts| - 1], old(api.results), api.results,
                     q.chat, old(DraftOf(q.chat)), store.known, store.healthy)
    {
      if a == SetText || a == SetMedia || a == SetButtons {
        AskFor(q, a);
      } else if a == SkipMedia || a == SkipButtons {
        Skip(q, a);
      } else if a == Cancel || a == SendAll {
        Close(q, a);
      } else {
        Show(q, a);
      }
    }

    /** The preview action shows the draft; a payload with no action does nothing more. */
    method Show(q: CallbackQuery, a: Action)
      requires a == Preview || a == Unrecognised
      modifies this, states, api
      ensures states.tags == Apply(old(states.tags), q.chat, TagChange(a))
      ensures drafts == Apply(old(drafts), q.chat, DraftChange(a, old(DraftOf(q.chat))))
      ensures prompts == old(prompts)
      ensures api.acts == old(api.acts) + CallbackActs(q, a, old(DraftOf(q.chat)), old(PromptOf(q.chat)))
    {
      if a == Preview {
        SendPreview(q.chat);
      } else {
        assert api.acts == old(api.acts) + [];
      }
    }

    /** The three steps that ask for a part of the draft: move to the step and send the prompt. */
    method AskFor(q: CallbackQuery, a: Action)
      requires a == SetText || a == SetMedia || a == SetButtons
      modifies this, states, api
      ensures states.tags == Apply(old(states.tags), q.chat, TagChange(a))
      ensures drafts == Apply(old(drafts), q.chat, DraftChange(a, old(DraftOf(q.chat))))
      ensures prompts == old(prompts)
      ensures api.acts == old(api.acts) + CallbackActs(q, a, old(DraftOf(q.chat)), old(PromptOf(q.chat)))
    {
      var chat := q.chat;
      match a
      case SetText =>
        states.tags := states.tags[chat := BroadcastAwaitText];
        var _ := api.Send(Outgoing(chat, Note(AskText), CancelKeyboard()));
      case SetMedia =>
        states.tags := states.tags[chat := BroadcastAwaitMedia];
        var _ := api.Send(Outgoing(chat, Note(AskMedia), SkipMediaKeyboard()));
      case SetButtons =>
        states.tags := states.tags[chat := BroadcastAwaitButtons];
        var _ := api.Send(Outgoing(chat, Note(AskButtons), SkipButtonsKeyboard()));
    }

    /** Skipping media or buttons: clear that part, acknowledge, and go on to the next step. */
    method Skip(q: CallbackQuery, a: Action)
      requires a == SkipMedia || a == SkipButtons
      modifies this, states, api
      ensures states.tags == Apply(old(states.tags), q.chat, TagChange(a))
      ensures drafts == Apply(old(drafts), q.chat, DraftChange(a, old(DraftOf(q.chat))))
      ensures a == SkipMedia ==> prompts == old(prompts)
      ensures a == SkipButtons ==>
                |api.results| > 0 && prompts == AfterMenu(old(prompts), q.chat, api.results[|api.results| - 1])
      ensures api.acts == old(api.acts) + CallbackActs(q, a, old(DraftOf(q.chat)), old(PromptOf(q.chat)))
    {
      if a == SkipMedia {
        SkipMediaStep(q);
      } else {
        SkipButtonsStep(q);
      }
    }

    /** Skipping the media: the draft loses its media and the builder asks for buttons. */
    method SkipMediaStep(q: CallbackQuery)
      modifies this, states, api
      ensures states.tags == Apply(old(states.tags), q.chat, TagChange(SkipMedia))
      ensures drafts == Apply(old(drafts), q.chat, DraftChange(SkipMedia, old(DraftOf(q.chat))))
      ensures prompts == old(prompts)
      ensures api.acts == old(api.acts) + CallbackActs(q, SkipMedia, old(DraftOf(q.chat)), old(PromptOf(q.chat)))
    {
      var chat := q.chat;
      drafts := drafts[chat := DraftOf(chat).(mediaId := "", kind := "")];
      states.tags := states.tags[chat := BroadcastAwaitButtons];
      api.Answer(q.id, MediaSkippedAck);
      var _ := api.Send(Outgoing(chat, Note(MediaSkippedAskButtons), SkipButtonsKeyboard()));
      ConcatAssoc(old(api.acts), [AnswerCallback(q.id, MediaSkippedAck)],
        [SendMsg(Outgoing(chat, Note(MediaSkippedAskButtons), SkipButtonsKeyboard()))]);
    }

    /** Skipping the buttons: the draft loses its buttons and the builder menu comes back. */
    method SkipButtonsStep(q: CallbackQuery)
      modifies this, states, api
      ensures states.tags == Apply(old(states.tags), q.chat, TagChange(SkipButtons))
      ensures drafts == Apply(old(drafts), q.chat, DraftChange(SkipButtons, old(DraftOf(q.chat))))
      ensures |api.results| > 0 && prompts == AfterMenu(old(prompts), q.chat, api.results[|api.results| - 1])
      ensures api.acts == old(api.acts) + CallbackActs(q, SkipButtons, old(DraftOf(q.chat)), old(PromptOf(q.chat)))
    {
      var chat := q.chat;
      drafts := drafts[chat := DraftOf(chat).(buttons := [])];
      states.tags := states.tags[chat := StateNone];
      api.Answer(q.id, ButtonsSkippedAck);
      SendBuilderMenu(chat);
      ConcatAssoc(old(api.acts), [AnswerCallback(q.id, ButtonsSkippedAck)],
        MenuActs(chat, old(PromptOf(chat)), old(DraftOf(chat)).(buttons := [])));
    }


    /**
      Cancel and send both end the session: the state, the draft and the menu ID go, and the
      menu message is deleted; send first runs the broadcast, cancel afterwards says so.
    */
    method Close(q: CallbackQuery, a: Action)
      requires a == Cancel || a == SendAll
      modifies this, states, api
      ensures states.tags == Apply(old(states.tags), q.chat, TagChange(a))
      ensures drafts == Apply(old(drafts), q.chat, DraftChange(a, old(DraftOf(q.chat))))
      ensures prompts == Apply(old(prompts), q.chat, Drop)
      ensures a != SendAll ==> api.acts == old(api.acts) + CallbackActs(q, a, old(DraftOf(q.chat)), old(PromptOf(q.chat)))
      ensures a == SendAll ==>
                && |api.acts| > 0 && api.acts[|api.acts| - 1] == DeleteMsg(q.chat, q.messageId)
                && Executed(old(api.acts), api.acts[..|api.acts| - 1], old(api.results), api.results,
                     q.chat, old(DraftOf(q.chat)), store.known, store.healthy)
    {
      if a == Cancel {
        CancelSession(q);
      } else {
        SendSession(q);
      }
    }

    /** Cancel: the session ends, its menu is deleted, and the chat is told. */
    method CancelSession(q: CallbackQuery)
      modifies this, states, api
      ensures states.tags == Apply(old(states.tags), q.chat, TagChange(Cancel))
      ensures drafts == Apply(old(drafts), q.chat, DraftChange(Cancel, old(DraftOf(q.chat))))
      ensures prompts == Apply(old(prompts), q.chat, Drop)
      ensures api.acts == old(api.acts) + CallbackActs(q, Cancel, old(DraftOf(q.chat)), old(PromptOf(q.chat)))
    {
      var chat := q.chat;
      states.tags := states.tags[chat := StateNone];
      drafts := drafts - {chat};
      prompts := prompts - {chat};
      api.Delete(chat, q.messageId);
      var _ := api.Send(Outgoing(chat, Note(BroadcastCancelled), NoMarkup));
      ConcatAssoc(old(api.acts), [DeleteMsg(chat, q.messageId)],
        [SendMsg(Outgoing(chat, Note(BroadcastCancelled), NoMarkup))]);
    }

    /** Send: the broadcast runs to completion, then the session ends and its menu is deleted. */
    method SendSession(q: CallbackQuery)
      modifies this, states, api
      ensures states.tags == Apply(old(states.tags), q.chat, TagChange(SendAll))
      ensures drafts == Apply(old(drafts), q.chat, DraftChange(SendAll, old(DraftOf(q.chat))))
      ensures prompts == Apply(old(prompts), q.chat, Drop)
      ensures && |api.acts| > 0 && api.acts[|api.acts| - 1] == DeleteMsg(q.chat, q.messageId)
              && Executed(old(api.acts), api.acts[..|api.acts| - 1], old(api.results), api.results,
                     q.chat, old(DraftOf(q.chat)), store.known, store.healthy)
    {
      var chat := q.chat;
      ExecuteBroadcast(chat);
      ghost var executed := api.acts;
      states.tags := states.tags[chat := StateNone];
      drafts := drafts - {chat};
      prompts := prompts - {chat};
      api.Delete(chat, q.messageId);
      assert api.acts[..|api.acts| - 1] == executed;
    }

    /**
      HandleMessageInput: input from a chat without an entry in the state table is not the
      builder's; any other input is taken, and acts only when the chat is at one of the three
      builder steps.
    */
    method HandleMessageInput(msg: Message) returns (handled: bool)
      modifies this, states, api
      ensures handled == (msg.chat in old(states.tags))
      ensures !handled || !IsBroadcastTag(old(states.tags)[msg.chat]) ==>
                && api.acts == old(api.acts) && api.results == old(api.results)
                && states.tags == old(states.tags) && drafts == old(drafts) && prompts == old(prompts)
      // the text step
      ensures handled && old(states.tags)[msg.chat] == BroadcastAwaitText ==>
                match WithText(old(DraftOf(msg.chat)), msg.text)
                case None =>
                  && states.tags == old(states.tags) && drafts == old(drafts) && prompts == old(prompts)
                  && api.acts == old(api.acts) + [SendMsg(Outgoing(msg.chat, Note(TextRejected), CancelKeyboard()))]
                case Some(d) =>
                  && states.tags == old(states.tags)[msg.chat := BroadcastAwaitMedia]
                  && drafts == old(drafts)[msg.chat := d] && prompts == old(prompts)
                  && api.acts == old(api.acts) + [DeleteMsg(msg.chat, msg.messageId),
                       SendMsg(Outgoing(msg.chat, Note(TextSetAskMedia), SkipMediaKeyboard()))]
      // the media step
      ensures handled && old(states.tags)[msg.chat] == BroadcastAwaitMedia ==>
                match WithMedia(old(DraftOf(msg.chat)), msg)
                case None =>
                  && states.tags == old(states.tags) && drafts == old(drafts) && prompts == old(prompts)
                  && api.acts == old(api.acts) + [SendMsg(Outgoing(msg.chat, Note(MediaRejected), SkipMediaKeyboard()))]
                case Some(d) =>
                  && states.tags == old(states.tags)[msg.chat := BroadcastAwaitButtons]
                  && drafts == old(drafts)[msg.chat := d] && prompts == old(prompts)
                  && api.acts == old(api.acts) + [DeleteMsg(msg.chat, msg.messageId),
                       SendMsg(Outgoing(msg.chat, Note(MediaSetAskButtons), SkipButtonsKeyboard()))]
      // the buttons step
      ensures handled && old(states.tags)[msg.chat] == BroadcastAwaitButtons ==>
                match WithButtons(old(DraftOf(msg.chat)), msg.text)
                case None =>
                  && states.tags == old(states.tags) && drafts == old(drafts) && prompts == old(prompts)
                  && api.acts == old(api.acts) + [SendMsg(Outgoing(msg.chat,
                       Note(FaultNotice(FirstFault(msg.text).value)), SkipButtonsKeyboard()))]
                case Some(d) =>
                  && states.tags == old(states.tags)[msg.chat := StateNone]
                  && drafts == old(drafts)[msg.chat := d]
                  && api.acts == old(api.acts) + [DeleteMsg(msg.chat, msg.messageId)]
                       + MenuActs(msg.chat, old(PromptOf(msg.chat)), d)
                  && |api.results| > 0
                  && prompts == AfterMenu(old(prompts), msg.chat, api.results[|api.results| - 1])
    {
      if msg.chat !in states.tags {
        return false;
      }
      handled := true;
      var state := states.tags[msg.chat];
      if state == BroadcastAwaitText {
        TakeText(msg);
      } else if state == BroadcastAwaitMedia {
        TakeMedia(msg);
      } else if state == BroadcastAwaitButtons {
        TakeButtons(msg);
      }
    }

    /** The text step: any non-empty text becomes the draft's text. */
    method TakeText(msg: Message)
      modifies this, states, api
      ensures match WithText(old(DraftOf(msg.chat)), msg.text)
              case None =>
                && states.tags == old(states.tags) && drafts == old(drafts) && prompts == old(prompts)
                && api.acts == old(api.acts) + [SendMsg(Outgoing(msg.chat, Note(TextRejected), CancelKeyboard()))]
              case Some(d) =>
                && states.tags == old(states.tags)[msg.chat := BroadcastAwaitMedia]
                && drafts == old(drafts)[msg.chat := d] && prompts == old(prompts)
                && api.acts == old(api.acts) + [DeleteMsg(msg.chat, msg.messageId),
                     SendMsg(Outgoing(msg.chat, Note(TextSetAskMedia), SkipMediaKeyboard()))]
    {
      var chat := msg.chat;
      if msg.text == "" {
        var _ := api.Send(Outgoing(chat, Note(TextRejected), CancelKeyboard()));
        return;
      }
      drafts := drafts[chat := DraftOf(chat).(text := msg.text)];
      states.tags := states.tags[chat := BroadcastAwaitMedia];
      api.Delete(chat, msg.messageId);
      var _ := api.Send(Outgoing(chat, Note(TextSetAskMedia), SkipMediaKeyboard()));
    }

    /** The media step: a photo or a video becomes the draft's media. */
    method TakeMedia(msg: Message)
      modifies this, states, api
      ensures match WithMedia(old(DraftOf(msg.chat)), msg)
              case None =>
                && states.tags == old(states.tags) && drafts == old(drafts) && prompts == old(prompts)
                && api.acts == old(api.acts) + [SendMsg(Outgoing(msg.chat, Note(MediaRejected), SkipMediaKeyboard()))]
              case Some(d) =>
                && states.tags == old(states.tags)[msg.chat := BroadcastAwaitButtons]
                && drafts == old(drafts)[msg.chat := d] && prompts == old(prompts)
                && api.acts == old(api.acts) + [DeleteMsg(msg.chat, msg.messageId),
                     SendMsg(Outgoing(msg.chat, Note(MediaSetAskButtons), SkipButtonsKeyboard()))]
    {
      var chat := msg.chat;
      var mediaId, kind;
      if |msg.photo| > 0 {
        mediaId, kind := msg.photo[|msg.photo| - 1], "photo";
      } else if msg.video.Some? {
        mediaId, kind := msg.video.value, "video";
      } else {
        var _ := api.Send(Outgoing(chat, Note(MediaRejected), SkipMediaKeyboard()));
        return;
      }
      drafts := drafts[chat := DraftOf(chat).(mediaId := mediaId, kind := kind)];
      states.tags := states.tags[chat := BroadcastAwaitButtons];
      api.Delete(chat, msg.messageId);
      var _ := api.Send(Outgoing(chat, Note(MediaSetAskButtons), SkipButtonsKeyboard()));
    }

    /** The buttons step: a spec that passes validation becomes the draft's keyboard, and the menu returns. */
    method TakeButtons(msg: Message)
      modifies this, states, api
      ensures match WithButtons(old(DraftOf(msg.chat)), msg.text)
              case None =>
                && states.tags == old(states.tags) && drafts == old(drafts) && prompts == old(prompts)
                && api.acts == old(api.acts) + [SendMsg(Outgoing(msg.chat,
                     Note(FaultNotice(FirstFault(msg.text).value)), SkipButtonsKeyboard()))]
              case Some(d) =>
                && states.tags == old(states.tags)[msg.chat := StateNone]
                && drafts == old(drafts)[msg.chat := d]
                && api.acts == old(api.acts) + [DeleteMsg(msg.chat, msg.messageId)]
                     + MenuActs(msg.chat, old(PromptOf(msg.chat)), d)
                && |api.results| > 0
                && prompts == AfterMenu(old(prompts), msg.chat, api.results[|api.results| - 1])
    {
      var chat := msg.chat;
      var fault := ValidateButtonSpec(msg.text);
      if fault.Some? {
        var _ := api.Send(Outgoing(chat, Note(FaultNotice(fault.value)), SkipButtonsKeyboard()));
        return;
      }
      drafts := drafts[chat := DraftOf(chat).(buttons := ParseButtons(msg.text))];
      states.tags := states.tags[chat := StateNone];
      api.Delete(chat, msg.messageId);
      SendBuilderMenu(chat);
    }
  }
}
