/**
  The Telegram Bot API as the bot sees it: the inbound updates it reads (only the fields the
  handlers look at), the messages it composes, and the transport, which is modelled as a
  log of every send, delete, callback answer and command-menu request, in order. Whether a send
  succeeds, and the message ID it returns, are chosen by the environment.
*/
module Telegram {
  import opened Options

  // ---------------------------------------------------------------------------
  // Inbound

  /** The sender of a message (tgbotapi.User). */
  datatype User = User(id: int, firstName: string, lastName: string, userName: string)

  /** The two fields of a replied-to message that the reply path reads. */
  datatype Quoted = Quoted(text: string, caption: string)

  /**
    An inbound message. `command` is what Message.Command() returns when IsCommand() holds
    (the platform marks a leading bot command as an entity) and None otherwise; `photo` lists
    the file IDs of the photo sizes, largest last; `sticker`, `video` and `document` hold file IDs.
  */
  datatype Message = Message(
    messageId: int,
    chat: int,
    from: User,
    command: Option<string>,
    text: string,
    caption: string,
    photo: seq<string>,
    sticker: Option<string>,
    video: Option<string>,
    document: Option<string>,
    replyTo: Option<Quoted>)

  /** A button press: its ID, its data payload, and the chat and message the pressed keyboard sits on. */
  datatype CallbackQuery = CallbackQuery(id: string, data: string, chat: int, messageId: int)

  datatype Update = MessageUpdate(message: Message) | CallbackUpdate(query: CallbackQuery) | OtherUpdate

  // ---------------------------------------------------------------------------
  // Outbound

  /** An inline keyboard button: a link, or a button whose press sends `data` back to the bot. */
  datatype KeyButton = UrlButton(text: string, url: string) | DataButton(text: string, data: string)

  /** An inline keyboard, row by row. */
  type Rows = seq<seq<KeyButton>>

  /** A message carries an inline keyboard or no reply markup at all. */
  datatype Markup = NoMarkup | Keyboard(rows: Rows)

  /** One numbered line of the blocked-user list. */
  datatype Entry = Entry(index: int, name: string)

  /** What the welcome editors show as the current value before asking for a new one. */
  datatype Shown = Stored(value: string) | NothingStored | Unreadable

  /**
    The bot's fixed system texts, one tag per message the source writes out literally;
    parameters carry the values the source formats into them.
  */
  datatype Notice =
    // broadcast builder
    | AskText
    | AskMedia
    | MediaSkippedAskButtons
    | AskButtons
    | TextRejected
    | TextSetAskMedia
    | MediaRejected
    | MediaSetAskButtons
    | MalformedButtonLine(line: nat, content: string)
    | InvalidButtonUrl(line: nat, url: string)
    | BuilderMenu(text: string, mediaKind: Option<string>, buttonsSet: bool)
    | BroadcastCancelled
    | PreviewEmpty
    | PreviewHeader
    | SendEmpty
    | UserListFailed
    | BroadcastDone(count: nat)
    // welcome editor
    | DefaultWelcome
    | CurrentWelcome(shown: Shown)
    | CurrentButtons(shown: Shown)
    | SaveWelcomeFailed
    | WelcomeSaved
    | SaveButtonsFailed
    | ButtonsSaved
    // dispatcher
    | ReplyFailed(user: int)
    | ReplyDelivered
    | ReplyUnsupported
    | ReplyNoUserId
    | ListBlockedFailed
    | NoBlockedUsers
    | BlockedPage(page: int, totalPages: int, entries: seq<Entry>)
    | StatsFailed
    | Stats(total: int, active: int, blocked: int)
    | YouAreBlocked
    | MessageReceived
    | CannotRoute

  /** The body of an outgoing message. */
  datatype Content =
    | Text(text: string)
    | Note(notice: Notice)
    | Photo(file: string, caption: string)
    | Video(file: string, caption: string)
    | Document(file: string, caption: string)
    | Sticker(file: string)

  datatype Outgoing = Outgoing(chat: int, content: Content, markup: Markup)

  datatype SendResult = Delivered(messageId: int) | Failed

  /** The texts a callback answer can carry (the empty one acknowledges silently). */
  datatype Ack = Silent | UnblockedAck | BlockedAck | MediaSkippedAck | ButtonsSkippedAck

  /** One call the bot makes on the API. */
  datatype Act =
    | SendMsg(msg: Outgoing)
    | DeleteMsg(chat: int, messageId: int)
    | AnswerCallback(callbackId: string, ack: Ack)
    | SetCommandMenu(chat: int, admin: bool)

  /** The number of delivered sends among `rs`. */
  function Successes(rs: seq<SendResult>): (n: nat)
    ensures n <= |rs|
  {
    if rs == [] then 0 else Successes(rs[..|rs| - 1]) + (if rs[|rs| - 1].Delivered? then 1 else 0)
  }

  /** Counting successes distributes over concatenation. */
  lemma {:induction false} SuccessesConcat(a: seq<SendResult>, b: seq<SendResult>)
    ensures Successes(a + b) == Successes(a) + Successes(b)
  {
    if b != [] {
      var b' := b[..|b| - 1];
      SuccessesConcat(a, b');
      assert (a + b)[..|a + b| - 1] == a + b';
    } else {
      assert a + b == a;
    }
  }

  /**
    The bot API client. `acts` records every call in order; `results` records the outcome of
    every send in order. Only sends report an outcome the bot looks at.
  */
  class Transport {
    var acts: seq<Act>
    var results: seq<SendResult>

    constructor ()
      ensures acts == [] && results == []
    {
      acts, results := [], [];
    }

    /** API.Send: the environment decides whether it is delivered and under which message ID. */
    method Send(m: Outgoing) returns (r: SendResult)
      modifies this
      ensures acts == old(acts) + [SendMsg(m)]
      ensures results == old(results) + [r]
    {
      var ok: bool := *;
      var id: int := *;
      r := if ok then Delivered(id) else Failed;
      acts, results := acts + [SendMsg(m)], results + [r];
    }

    /** API.Request with a DeleteMessage config. */
    method Delete(chat: int, messageId: int)
      modifies this
      ensures acts == old(acts) + [DeleteMsg(chat, messageId)] && results == old(results)
    {
      acts := acts + [DeleteMsg(chat, messageId)];
    }

    /** API.Request with a callback answer. */
    method Answer(callbackId: string, ack: Ack)
      modifies this
      ensures acts == old(acts) + [AnswerCallback(callbackId, ack)] && results == old(results)
    {
      acts := acts + [AnswerCallback(callbackId, ack)];
    }

    /** API.Request setting the chat's command menu. */
    method SetCommands(chat: int, admin: bool)
      modifies this
      ensures acts == old(acts) + [SetCommandMenu(chat, admin)] && results == old(results)
    {
      acts := acts + [SetCommandMenu(chat, admin)];
    }
  }
}
