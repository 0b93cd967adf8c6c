/**
  The pure logic of the dispatcher (main.go): finding the user a reply is meant for, choosing
  what to send back, decoding the callback payloads the dispatcher owns, paging the blocked
  list, the labels it shows, the copy of a user's message forwarded to the admin, and
  MarkdownV2 escaping.
*/
module Relay {
  import opened Options
  import opened Text
  import opened Telegram
  import opened Store
  import opened Broadcast

  // ---------------------------------------------------------------------------
  // The user ID in a replied-to message: the leftmost "(digits)"

  /** The number of consecutive decimal digits in `s` from index `k` on. */
  function DigitRun(s: string, k: nat): (r: nat)
    requires k <= |s|
    ensures k + r <= |s|
    ensures forall j :: k <= j < k + r ==> IsDigit(s[j])
    ensures k + r < |s| ==> !IsDigit(s[k + r])
    decreases |s| - k
  {
    if k < |s| && IsDigit(s[k]) then 1 + DigitRun(s, k + 1) else 0
  }

  /** The digits of a match of `\((\d+)\)` starting at index `i`, if one starts there. */
  function MatchAt(s: string, i: nat): (r: Option<string>)
    requires i < |s|
    ensures r.Some? ==> |r.value| > 0 && AllDigits(r.value)
  {
    if s[i] != '(' then None
    else
      var n := DigitRun(s, i + 1);
      if n > 0 && i + 1 + n < |s| && s[i + 1 + n] == ')' then
        assert forall j :: i + 1 <= j < i + 1 + n ==> s[i + 1..i + 1 + n][j - i - 1] == s[j];
        Some(s[i + 1..i + 1 + n])
      else None
  }

  /** The leftmost index from `i` on where a match starts. */
  function FirstMatch(s: string, i: nat): (r: Option<nat>)
    requires i <= |s|
    ensures r.Some? ==> i <= r.value < |s| && MatchAt(s, r.value).Some?
    ensures r.Some? ==> forall j :: i <= j < r.value ==> MatchAt(s, j).None?
    ensures r.None? ==> forall j :: i <= j < |s| ==> MatchAt(s, j).None?
    decreases |s| - i
  {
    if i == |s| then None
    else if MatchAt(s, i).Some? then Some(i)
    else FirstMatch(s, i + 1)
  }

  /** FindStringSubmatch's capture group: the digits of the leftmost match. */
  function ParenDigits(s: string): Option<string> {
    match FirstMatch(s, 0)
    case None => None
    case Some(i) => MatchAt(s, i)
  }

  /** A digit run stops exactly where the digits do. */
  lemma {:induction false} DigitRunOf(s: string, k: nat, n: nat)
    requires k + n <= |s|
    requires forall j :: k <= j < k + n ==> IsDigit(s[j])
    requires k + n < |s| && !IsDigit(s[k + n])
    ensures DigitRun(s, k) == n
    decreases n
  {
    if n > 0 {
      DigitRunOf(s, k + 1, n - 1);
    }
  }

  /**
    A text that reads `p (digits) rest`, where `p` holds no opening parenthesis, yields
    those digits: the ID written after the sender's name is found.
  */
  lemma ParenDigitsFinds(p: string, digits: string, rest: string)
    requires '(' !in p && |digits| > 0 && AllDigits(digits)
    ensures ParenDigits(p + "(" + digits + ")" + rest) == Some(digits)
  {
    var s := p + "(" + digits + ")" + rest;
    var i := |p|;
    forall j | 0 <= j < i ensures MatchAt(s, j).None? {
      assert s[j] == p[j];
    }
    assert s[i] == '(';
    assert forall j :: i + 1 <= j < i + 1 + |digits| ==> s[j] == digits[j - i - 1];
    assert s[i + 1 + |digits|] == ')';
    DigitRunOf(s, i + 1, |digits|);
    assert s[i + 1..i + 1 + |digits|] == digits;
    assert MatchAt(s, i) == Some(digits);
    var r := FirstMatch(s, 0);
    assert r.Some?;
    assert r.value == i;
  }

  /**
    The user a reply is for: the replied-to text (or, when it has none, its caption) is
    scanned for the leftmost "(digits)"; no text, no match or an ID outside 64 bits gives 0.
  */
  function ReplyTargetId(q: Quoted): int {
    var t := if q.text != "" then q.text else q.caption;
    if t == "" then 0
    else match ParenDigits(t)
      case None => 0
      case Some(d) => match ParseInt64(d) case None => 0 case Some(n) => n
  }

  /** A replied-to text naming `(n)` after a parenthesis-free prefix is a reply to user n. */
  lemma ReplyFindsUser(p: string, n: nat, rest: string, caption: string)
    requires '(' !in p && n <= MaxInt64
    ensures ReplyTargetId(Quoted(p + "(" + NatToDecimal(n) + ")" + rest, caption)) == n
  {
    var t := p + "(" + NatToDecimal(n) + ")" + rest;
    assert t[|p|] == '(';
    ParenDigitsFinds(p, NatToDecimal(n), rest);
    DecimalRoundTrip(n);
    ParseDigits(NatToDecimal(n));
  }

  /** The caption is read only when the text is empty. */
  lemma ReplyPrefersText(text: string, caption: string)
    requires text != ""
    ensures ReplyTargetId(Quoted(text, caption)) == ReplyTargetId(Quoted(text, ""))
  {
  }

  /** A replied-to message without a "(digits)" gives no user. */
  lemma ReplyWithoutMatch(q: Quoted)
    requires ParenDigits(q.text).None? && ParenDigits(q.caption).None?
    ensures ReplyTargetId(q) == 0
  {
  }

  // ---------------------------------------------------------------------------
  // What an admin reply sends to the user

  /** The kinds of content a message can carry. */
  datatype Kind = TextKind | StickerKind | PhotoKind | VideoKind | DocumentKind

  /** The kinds a message carries, in the order the reply path tries them. */
  function ReplyKinds(m: Message): (ks: seq<Kind>) {
    (if m.text != "" then [TextKind] else [])
    + (if m.sticker.Some? then [StickerKind] else [])
    + (if |m.photo| > 0 then [PhotoKind] else [])
    + (if m.video.Some? then [VideoKind] else [])
    + (if m.document.Some? then [DocumentKind] else [])
  }

  function KindOf(c: Content): Option<Kind> {
    match c
    case Text(_) => Some(TextKind)
    case Sticker(_) => Some(StickerKind)
    case Photo(_, _) => Some(PhotoKind)
    case Video(_, _) => Some(VideoKind)
    case Document(_, _) => Some(DocumentKind)
    case Note(_) => None
  }

  /**
    The copy of the admin's message for the user: the text, else the sticker, else the
    largest photo size, else the video, else the document, the media with the admin's caption.
  */
  function ReplyContent(m: Message): Option<Content> {
    if m.text != "" then Some(Text(m.text))
    else if m.sticker.Some? then Some(Sticker(m.sticker.value))
    else if |m.photo| > 0 then Some(Photo(m.photo[|m.photo| - 1], m.caption))
    else if m.video.Some? then Some(Video(m.video.value, m.caption))
    else if m.document.Some? then Some(Document(m.document.value, m.caption))
    else None
  }

  /** The reply carries the first kind the message has, and nothing when it has none. */
  lemma ReplyContentFirstKind(m: Message)
    ensures ReplyContent(m).None? <==> ReplyKinds(m) == []
    ensures ReplyContent(m).Some? ==> KindOf(ReplyContent(m).value) == Some(ReplyKinds(m)[0])
  {
  }

  // ---------------------------------------------------------------------------
  // Callback payloads the dispatcher owns

  const UnblockPrefix: string := "unblock_"
  const BlockPrefix: string := "block_"
  const PrevPrefix: string := "page_prev_"
  const NextPrefix: string := "page_next_"

  /**
    What a callback payload asks of the dispatcher; `Ignore` is a malformed payload, which
    gets no answer at all, and `Delegate` one for the broadcast builder or nobody.
  */
  datatype Request = Unblock(user: int) | ShowPage(page: int) | Block(user: int) | Ignore | Delegate

  /** The number after the `_` in `[head, number]` or `[head, dir, number]` form. */
  function NumberPart(data: string, parts: nat): Option<int> {
    var ps := Split(data, '_');
    if |ps| != parts then None else ParseInt64(ps[parts - 1])
  }

  function DecodeCallback(data: string): Request {
    if UnblockPrefix <= data then
      match NumberPart(data, 2) case None => Ignore case Some(id) => Unblock(id)
    else if PrevPrefix <= data || NextPrefix <= data then
      match NumberPart(data, 3) case None => Ignore case Some(n) => ShowPage(n)
    else if BlockPrefix <= data then
      match NumberPart(data, 2) case None => Ignore case Some(id) => Block(id)
    else Delegate
  }

  /** A decimal integer holds no underscore. */
  lemma FormatHasNoUnderscore(n: int)
    ensures '_' !in FormatInt(n)
  {
    var s := FormatInt(n);
    var digits := if n < 0 then s[1..] else s;
    assert AllDigits(digits);
    assert n < 0 ==> s == "-" + digits;
  }

  /** A one-word head, an underscore and a tail without one split into the head and the tail. */
  lemma SplitTwo(head: string, tail: string)
    requires '_' !in head && '_' !in tail
    ensures Split(head + "_" + tail, '_') == [head, tail]
  {
    CutAfter(head, '_', tail);
    assert head + "_" + tail == head + ['_'] + tail;
    assert Split(tail, '_') == [tail];
  }

  /** Three words joined by underscores split back into the three. */
  lemma SplitThree(a: string, b: string, c: string)
    requires '_' !in a && '_' !in b && '_' !in c
    ensures Split(a + "_" + b + "_" + c, '_') == [a, b, c]
  {
    SplitTwo(b, c);
    var s := a + "_" + b + "_" + c;
    assert s == a + ['_'] + (b + "_" + c);
    CutAfter(a, '_', b + "_" + c);
  }

  lemma UnblockPayload(t: string)
    ensures UnblockPrefix + t == "unblock" + "_" + t
  {
  }

  lemma BlockPayload(t: string)
    ensures BlockPrefix + t == "block" + "_" + t
  {
  }

  lemma PrevPayload(t: string)
    ensures PrevPrefix + t == "page" + "_" + "prev" + "_" + t
  {
  }

  lemma NextPayload(t: string)
    ensures NextPrefix + t == "page" + "_" + "next" + "_" + t
  {
  }

  /** A payload carrying `number` after the prefix decodes by that prefix alone. */
  lemma NumberOfPayload(head: string, t: string, id: int)
    requires '_' !in head && '_' !in t && ParseInt64(t) == Some(id)
    ensures NumberPart(head + "_" + t, 2) == Some(id)
  {
    SplitTwo(head, t);
  }

  /** The unblock button's payload decodes back to the user it was made for. */
  lemma DecodeUnblock(id: int)
    requires IsInt64(id)
    ensures DecodeCallback(UnblockPrefix + FormatInt(id)) == Unblock(id)
  {
    var t := FormatInt(id);
    FormatHasNoUnderscore(id);
    ParseFormat(id);
    UnblockPayload(t);
    NumberOfPayload("unblock", t, id);
  }

  /** Payloads starting with a `b` are none of the dispatcher's other kinds. */
  lemma StartsWithB(data: string)
    requires |data| > 0 && data[0] == 'b'
    ensures !(UnblockPrefix <= data) && !(PrevPrefix <= data) && !(NextPrefix <= data)
  {
  }

  /** The block button's payload decodes back to the user it was made for. */
  lemma DecodeBlock(id: int)
    requires IsInt64(id)
    ensures DecodeCallback(BlockPrefix + FormatInt(id)) == Block(id)
  {
    var t := FormatInt(id);
    FormatHasNoUnderscore(id);
    ParseFormat(id);
    BlockPayload(t);
    NumberOfPayload("block", t, id);
    var data := BlockPrefix + t;
    assert data[0] == 'b';
    StartsWithB(data);
  }

  /** Three-part payloads decode by their number. */
  lemma NumberOfPagePayload(dir: string, t: string, n: int)
    requires '_' !in dir && '_' !in t && ParseInt64(t) == Some(n)
    ensures NumberPart("page" + "_" + dir + "_" + t, 3) == Some(n)
  {
    SplitThree("page", dir, t);
  }

  /** Payloads starting with a `p` are not unblock payloads. */
  lemma StartsWithP(data: string)
    requires |data| > 0 && data[0] == 'p'
    ensures !(UnblockPrefix <= data)
  {
  }

  /** Both page buttons' payloads decode back to the page they point to. */
  lemma DecodePage(n: int)
    requires IsInt64(n)
    ensures DecodeCallback(PrevPrefix + FormatInt(n)) == ShowPage(n)
    ensures DecodeCallback(NextPrefix + FormatInt(n)) == ShowPage(n)
  {
    var t := FormatInt(n);
    FormatHasNoUnderscore(n);
    ParseFormat(n);
    PrevPayload(t);
    NumberOfPagePayload("prev", t, n);
    assert (PrevPrefix + t)[0] == 'p';
    StartsWithP(PrevPrefix + t);
    NextPayload(t);
    NumberOfPagePayload("next", t, n);
    assert (NextPrefix + t)[0] == 'p';
    StartsWithP(NextPrefix + t);
  }

  /** Payloads of the broadcast builder are never taken by the dispatcher. */
  lemma BuilderPayloadsDelegated(data: string)
    requires Broadcast.Prefix <= data
    ensures DecodeCallback(data) == Delegate
  {
    assert data[0] == 'b' && data[1] == 'b';
  }

  // ---------------------------------------------------------------------------
  // The blocked-user list

  const UsersPerPage: nat := 10

  /** The number of pages `n` entries take, ten to a page. */
  function TotalPages(n: nat): nat {
    (n + UsersPerPage - 1) / UsersPerPage
  }

  /** A requested page outside 1..total is read as page 1. */
  function ClampPage(page: int, total: nat): int {
    if page < 1 || page > total then 1 else page
  }

  function PageStart(page: int): int {
    (page - 1) * UsersPerPage
  }

  function PageEnd(page: int, n: nat): int {
    if PageStart(page) + UsersPerPage > n then n else PageStart(page) + UsersPerPage
  }

  /**
    With n > 0 entries: n needs exactly TotalPages(n) pages of ten, the clamped page is one
    of them (and is the requested one when that exists), and its slice holds one to ten
    entries.
  */
  lemma Paging(n: nat, page: int)
    requires n > 0
    ensures (TotalPages(n) - 1) * UsersPerPage < n <= TotalPages(n) * UsersPerPage
    ensures 1 <= ClampPage(page, TotalPages(n)) <= TotalPages(n)
    ensures 1 <= page <= TotalPages(n) ==> ClampPage(page, TotalPages(n)) == page
    ensures 0 <= PageStart(ClampPage(page, TotalPages(n))) < PageEnd(ClampPage(page, TotalPages(n)), n) <= n
    ensures PageEnd(ClampPage(page, TotalPages(n)), n) - PageStart(ClampPage(page, TotalPages(n))) <= UsersPerPage
  {
    var t := TotalPages(n);
    assert t * 10 <= n + 9 < t * 10 + 10;
    var p := ClampPage(page, t);
    assert PageStart(p) == p * 10 - 10;
  }

  /** Who a list line names: the user name and full name when known, "Unknown" otherwise. */
  function DisplayName(p: Profile, idStr: string): string {
    var handle := if p.userName != "" then "@" + p.userName else "";
    var full := TrimSpace(p.firstName + " " + p.lastName);
    var named := if full == "" then handle else if handle != "" then handle + " (" + full + ")" else full;
    (if named == "" then "Unknown" else named) + " - ID: " + idStr
  }

  /** The four shapes a list line takes. */
  lemma DisplayNameCases(p: Profile, idStr: string)
    ensures var full := TrimSpace(p.firstName + " " + p.lastName);
      DisplayName(p, idStr) ==
        (if p.userName != "" && full != "" then "@" + p.userName + " (" + full + ")"
         else if p.userName != "" then "@" + p.userName
         else if full != "" then full
         else "Unknown") + " - ID: " + idStr
  {
  }

  /** The label of a user's unblock button. */
  function UnblockLabel(p: Profile, idStr: string): string {
    if p.userName != "" then "解除拉黑 @" + p.userName + " (" + idStr + ")"
    else if p.firstName != "" then "解除拉黑 " + p.firstName + " " + p.lastName + " (" + idStr + ")"
    else "解除拉黑 " + idStr
  }

  /** The user ID a listed member names for the profile lookup, read as the fan-out reads it. */
  function ProfileId(idStr: string): int {
    TargetOf(idStr)
  }

  /** The row of page buttons: back when there is a page before, on when there is one after. */
  function NavRow(page: int, total: int): (row: seq<KeyButton>)
    ensures |row| <= 2
  {
    (if page > 1 then [DataButton("上一页", PrevPrefix + FormatInt(page - 1))] else [])
    + (if page < total then [DataButton("下一页", NextPrefix + FormatInt(page + 1))] else [])
  }

  /**
    With more than one page, the page row is never empty, and each of its buttons leads one
    page back or on.
  */
  lemma NavRowSpec(page: int, total: int)
    requires total > 1 && 1 <= page <= total && total < MaxInt64
    ensures |NavRow(page, total)| == (if page > 1 then 1 else 0) + (if page < total then 1 else 0) > 0
    ensures page > 1 ==> NavRow(page, total)[0].data == PrevPrefix + FormatInt(page - 1)
                         && DecodeCallback(NavRow(page, total)[0].data) == ShowPage(page - 1)
    ensures page < total ==> var last := NavRow(page, total)[|NavRow(page, total)| - 1];
                             last.data == NextPrefix + FormatInt(page + 1)
                             && DecodeCallback(last.data) == ShowPage(page + 1)
  {
    var row := NavRow(page, total);
    var back: seq<KeyButton> := if page > 1 then [DataButton("上一页", PrevPrefix + FormatInt(page - 1))] else [];
    var on: seq<KeyButton> := if page < total then [DataButton("下一页", NextPrefix + FormatInt(page + 1))] else [];
    assert row == back + on;
    if page > 1 {
      DecodePage(page - 1);
      assert row[0] == back[0];
    }
    if page < total {
      DecodePage(page + 1);
      assert row[|row| - 1] == on[0];
    }
  }

  /**
    The list message for the members `ids` of the blocked set at the requested page;
    `shown[i]` and `labels[i]` are the profiles read for the i-th member on the page, for its
    line and for its button.
  */
  function Listing(chat: int, ids: seq<string>, page: int, shown: seq<Profile>, labels: seq<Profile>): Outgoing
    requires |ids| > 0
    requires var p := ClampPage(page, TotalPages(|ids|));
      |shown| == |labels| == PageEnd(p, |ids|) - PageStart(p)
  {
    var total := TotalPages(|ids|);
    var p := ClampPage(page, total);
    Paging(|ids|, page);
    var start := PageStart(p);
    var entries := seq(|shown|, i requires 0 <= i < |shown| => Entry(start + i + 1, DisplayName(shown[i], ids[start + i])));
    var rows := seq(|labels|, i requires 0 <= i < |labels| =>
                  [DataButton(UnblockLabel(labels[i], ids[start + i]), UnblockPrefix + ids[start + i])]);
    Outgoing(chat, Note(BlockedPage(p, total, entries)),
      Keyboard(rows + (if total > 1 then [NavRow(p, total)] else [])))
  }

  /**
    The list shows the page's members in order, numbered on from the previous pages, with
    one unblock row each, and the page row after them exactly when there is more than one page.
  */
  lemma ListingSpec(chat: int, ids: seq<string>, page: int, shown: seq<Profile>, labels: seq<Profile>)
    requires |ids| > 0
    requires var p := ClampPage(page, TotalPages(|ids|));
      |shown| == |labels| == PageEnd(p, |ids|) - PageStart(p)
    ensures var m := Listing(chat, ids, page, shown, labels);
      var total := TotalPages(|ids|);
      var p := ClampPage(page, total);
      && m.content.Note? && m.content.notice.BlockedPage?
      && m.content.notice.page == p && m.content.notice.totalPages == total
      && 1 <= |m.content.notice.entries| <= UsersPerPage
      && (forall i :: 0 <= i < |m.content.notice.entries| ==>
            m.content.notice.entries[i].index == (p - 1) * UsersPerPage + i + 1)
      && m.markup.Keyboard?
      && |m.markup.rows| == |m.content.notice.entries| + (if total > 1 then 1 else 0)
      && (forall i :: 0 <= i < |m.content.notice.entries| ==>
            m.markup.rows[i] == [DataButton(UnblockLabel(labels[i], ids[PageStart(p) + i]), UnblockPrefix + ids[PageStart(p) + i])])
  {
    Paging(|ids|, page);
  }

  /** The list message assembled from its parts as handleListBlocked assembles it. */
  lemma ListingFrom(chat: int, ids: seq<string>, page: int, shown: seq<Profile>, labels: seq<Profile>,
                    entries: seq<Entry>, rows: Rows)
    requires |ids| > 0
    requires var p := ClampPage(page, TotalPages(|ids|));
      0 <= PageStart(p) <= PageEnd(p, |ids|) <= |ids|
      && |shown| == |labels| == |entries| == |rows| == PageEnd(p, |ids|) - PageStart(p)
    requires var p := ClampPage(page, TotalPages(|ids|));
      forall k :: 0 <= k < |entries| ==> entries[k] == Entry(PageStart(p) + k + 1, DisplayName(shown[k], ids[PageStart(p) + k]))
    requires var p := ClampPage(page, TotalPages(|ids|));
      forall k :: 0 <= k < |rows| ==>
        rows[k] == [DataButton(UnblockLabel(labels[k], ids[PageStart(p) + k]), UnblockPrefix + ids[PageStart(p) + k])]
    ensures var p := ClampPage(page, TotalPages(|ids|)); var total := TotalPages(|ids|);
      Listing(chat, ids, page, shown, labels)
        == Outgoing(chat, Note(BlockedPage(p, total, entries)), Keyboard(rows + (if total > 1 then [NavRow(p, total)] else [])))
  {
    var p := ClampPage(page, TotalPages(|ids|));
    var start := PageStart(p);
    var es := seq(|shown|, i requires 0 <= i < |shown| => Entry(start + i + 1, DisplayName(shown[i], ids[start + i])));
    var rs := seq(|labels|, i requires 0 <= i < |labels| =>
                [DataButton(UnblockLabel(labels[i], ids[start + i]), UnblockPrefix + ids[start + i])]);
    assert es == entries;
    assert rs == rows;
  }

  // ---------------------------------------------------------------------------
  // MarkdownV2 escaping

  /** The characters MarkdownV2 reserves, in the order the escaper treats them. */
  const Reserved: seq<char> := ['_', '*', '[', ']', '(', ')', '~', '`', '>', '#', '+', '-', '=', '|', '{', '}', '.', '!']

  /** Each character of `cs` gets a backslash before it; every other character stays. */
  function EscapeIn(s: string, cs: set<char>): string {
    if s == [] then [] else (if s[0] in cs then ['\\', s[0]] else [s[0]]) + EscapeIn(s[1..], cs)
  }

  /** The first `k` reserved characters. */
  function ReservedUpTo(k: nat): set<char>
    requires k <= |Reserved|
  {
    set j | 0 <= j < k :: Reserved[j]
  }

  function ReservedSet(): set<char> {
    ReservedUpTo(|Reserved|)
  }

  /** escapeMarkdownV2 as a function: a per-character map. */
  function Escape(s: string): string {
    EscapeIn(s, ReservedSet())
  }

  /** How many characters of `s` belong to `cs`. */
  function CountIn(s: string, cs: set<char>): (n: nat)
    ensures n <= |s|
  {
    if s == [] then 0 else (if s[0] in cs then 1 else 0) + CountIn(s[1..], cs)
  }

  /** Escaping by no character changes nothing. */
  lemma {:induction false} EscapeNothing(s: string)
    ensures EscapeIn(s, {}) == s
  {
    if s != [] {
      EscapeNothing(s[1..]);
      assert s == [s[0]] + s[1..];
    }
  }

  /** Escaping adds one character per reserved character and nothing else. */
  lemma {:induction false} EscapeLength(s: string, cs: set<char>)
    ensures |EscapeIn(s, cs)| == |s| + CountIn(s, cs)
  {
    if s != [] {
      EscapeLength(s[1..], cs);
    }
  }

  /** Escaping works character by character: it distributes over concatenation. */
  lemma {:induction false} EscapeAppend(a: string, b: string, cs: set<char>)
    ensures EscapeIn(a + b, cs) == EscapeIn(a, cs) + EscapeIn(b, cs)
  {
    if a != [] {
      assert (a + b)[0] == a[0];
      assert (a + b)[1..] == a[1..] + b;
      EscapeAppend(a[1..], b, cs);
    } else {
      assert a + b == b;
    }
  }

  /** Removes the backslash before each character of `cs`. */
  function UnescapeIn(s: string, cs: set<char>): string
    decreases |s|
  {
    if s == [] then []
    else if |s| >= 2 && s[0] == '\\' && s[1] in cs then [s[1]] + UnescapeIn(s[2..], cs)
    else [s[0]] + UnescapeIn(s[1..], cs)
  }

  /**
    Unescaping undoes escaping, so no two texts escape alike, provided no text already had a
    backslash in front of a reserved character.
  */
  lemma {:induction false} UnescapeEscape(s: string, cs: set<char>)
    requires '\\' !in cs
    requires forall k :: 0 <= k < |s| - 1 ==> !(s[k] == '\\' && s[k + 1] in cs)
    ensures UnescapeIn(EscapeIn(s, cs), cs) == s
  {
    if s != [] {
      var e := EscapeIn(s, cs);
      UnescapeEscape(s[1..], cs);
      if s[0] in cs {
        assert e[2..] == EscapeIn(s[1..], cs);
      } else {
        assert e[1..] == EscapeIn(s[1..], cs);
        if s[0] == '\\' && |e| >= 2 {
          assert s[1] !in cs;
          assert e[1] == s[1];
        }
      }
      assert s == [s[0]] + s[1..];
    }
  }

  /**
    One pass of strings.ReplaceAll over an escaping by `cs` escapes one more character,
    since the backslashes already inserted are not themselves replaced.
  */
  lemma {:induction false} ReplaceExtends(s: string, cs: set<char>, c: char)
    requires c != '\\' && c !in cs
    ensures ReplaceAll(EscapeIn(s, cs), c, ['\\', c]) == EscapeIn(s, cs + {c})
  {
    if s != [] {
      var head: string := if s[0] in cs then ['\\', s[0]] else [s[0]];
      ReplaceAllAppend(head, EscapeIn(s[1..], cs), c, ['\\', c]);
      ReplaceExtends(s[1..], cs, c);
      if s[0] in cs {
        assert ReplaceAll(head, c, ['\\', c]) == head by {
          assert head[1..] == [s[0]];
        }
      }
    }
  }

  /** escapeMarkdownV2: one strings.ReplaceAll per reserved character, in order. */
  method EscapeMarkdownV2(text: string) returns (r: string)
    ensures r == Escape(text)
  {
    r := text;
    var k := 0;
    EscapeNothing(text);
    assert ReservedUpTo(0) == {};
    while k < |Reserved|
      invariant 0 <= k <= |Reserved|
      invariant r == EscapeIn(text, ReservedUpTo(k))
    {
      ghost var done := ReservedUpTo(k);
      assert Reserved[k] !in done;
      ReplaceExtends(text, done, Reserved[k]);
      r := ReplaceAll(r, Reserved[k], ['\\', Reserved[k]]);
      assert ReservedUpTo(k + 1) == done + {Reserved[k]};
      k := k + 1;
    }
  }

  // ---------------------------------------------------------------------------
  // What the admin receives for a user's message

  /** The link label naming the sender: the escaped first name and the ID in parentheses. */
  function SenderLabel(name: string, id: int): string {
    Escape(name) + " \\(" + FormatInt(id) + "\\)"
  }

  /** A headline around a sender label, in MarkdownV2: the label links to the sender. */
  function Headline(link: string, id: int): string {
    "收到来自用户 [" + link + "](tg://user?id=" + FormatInt(id) + ") 的消息:"
  }

  /** The headline of a forwarded message as the dispatcher writes it. */
  function CaptionAsWritten(sender: User): string {
    Headline(SenderLabel(sender.firstName, sender.id), sender.id)
  }

  /** What the admin's client shows of a headline: the link label with its escapes removed. */
  function VisibleHeadline(shownLabel: string): string {
    "收到来自用户 " + shownLabel + " 的消息:"
  }

  /** The first name with every opening parenthesis removed. */
  function SafeName(name: string): (r: string)
    ensures '(' !in r
  {
    if name == [] then [] else (if name[0] == '(' then [] else [name[0]]) + SafeName(name[1..])
  }

  /**
    The headline of a forwarded message: the sender's name loses its opening parentheses, so
    the first "(digits)" an admin reply is scanned for is the sender's own ID.
  */
  function Caption(sender: User): string {
    Headline(SenderLabel(SafeName(sender.firstName), sender.id), sender.id)
  }

  /** Unescaping an escaped text followed by more text unescapes the rest only. */
  lemma {:induction false} UnescapeAfterEscape(a: string, b: string, cs: set<char>)
    requires '\\' !in a && '\\' !in cs
    ensures UnescapeIn(EscapeIn(a, cs) + b, cs) == a + UnescapeIn(b, cs)
  {
    if a != [] {
      UnescapeAfterEscape(a[1..], b, cs);
      var head: string := if a[0] in cs then ['\\', a[0]] else [a[0]];
      var e := EscapeIn(a, cs) + b;
      assert e == head + (EscapeIn(a[1..], cs) + b);
      assert a[0] != '\\';
      assert UnescapeIn(e, cs) == [a[0]] + UnescapeIn(EscapeIn(a[1..], cs) + b, cs) by {
        if a[0] in cs {
          assert e[0] == '\\' && e[1] == a[0];
          assert e[2..] == EscapeIn(a[1..], cs) + b;
        } else {
          assert e[0] == a[0];
          assert e[1..] == EscapeIn(a[1..], cs) + b;
        }
      }
      assert a == [a[0]] + a[1..];
    } else {
      assert EscapeIn(a, cs) + b == b;
    }
  }

  /** A text with no character of `cs` escapes to itself. */
  lemma {:induction false} EscapeUntouched(s: string, cs: set<char>)
    requires forall k :: 0 <= k < |s| ==> s[k] !in cs
    ensures EscapeIn(s, cs) == s
  {
    if s != [] {
      EscapeUntouched(s[1..], cs);
      assert s == [s[0]] + s[1..];
    }
  }

  /** Which characters are reserved, as far as the sender label needs. */
  lemma ReservedFacts()
    ensures '(' in ReservedSet() && ')' in ReservedSet() && '\\' !in ReservedSet()
    ensures forall c :: IsDigit(c) ==> c !in ReservedSet()
  {
    assert Reserved[4] == '(' && Reserved[5] == ')';
  }

  /** A digit string followed by an escaped closing parenthesis unescapes to the digits and ")". */
  lemma UnescapeDigitsClose(d: string)
    requires AllDigits(d)
    ensures UnescapeIn(d + "\\)", ReservedSet()) == d + ")"
  {
    var cs := ReservedSet();
    ReservedFacts();
    assert forall k :: 0 <= k < |d| ==> d[k] !in cs;
    EscapeUntouched(d, cs);
    UnescapeAfterEscape(d, "\\)", cs);
    assert UnescapeIn("\\)", cs) == ")";
  }

  /** The escaped " (digits)" part of a sender label unescapes to " (digits)". */
  lemma UnescapeIdPart(d: string)
    requires AllDigits(d)
    ensures UnescapeIn(" \\(" + d + "\\)", ReservedSet()) == " (" + d + ")"
  {
    var cs := ReservedSet();
    ReservedFacts();
    UnescapeDigitsClose(d);
    var t := " \\(" + d + "\\)";
    assert t[0] == ' ' && t[1] == '\\' && t[2] == '(';
    assert t[3..] == d + "\\)";
    assert UnescapeIn(t, cs) == [' '] + UnescapeIn(t[1..], cs);
    assert t[1..][2..] == t[3..];
  }

  /**
    The client shows the label of a sender with a non-negative ID and no backslash in the name
    as the name, a space and the ID in parentheses.
  */
  lemma SenderLabelShown(name: string, id: nat)
    requires '\\' !in name
    ensures UnescapeIn(SenderLabel(name, id), ReservedSet()) == name + " (" + FormatInt(id) + ")"
  {
    var cs := ReservedSet();
    var d := FormatInt(id);
    ReservedFacts();
    UnescapeIdPart(d);
    LabelShape(Escape(name), d);
    UnescapeAfterEscape(name, " \\(" + d + "\\)", cs);
    assert name + (" (" + d + ")") == name + " (" + d + ")";
  }

  /** The sender label splits after the escaped name. */
  lemma LabelShape(e: string, d: string)
    ensures e + " \\(" + d + "\\)" == e + (" \\(" + d + "\\)")
  {
  }

  /** The visible headline of the example splits around the name's "(42)". */
  lemma ExampleShape()
    ensures VisibleHeadline("(42) (7)") + "\n\nhi" == "收到来自用户 " + "(" + "42" + ")" + (" (7)" + " 的消息:" + "\n\nhi")
  {
    assert "(42) (7)" == "(" + "42" + ")" + " (7)";
  }

  /** The ID 7 is written "7". */
  lemma SevenShown()
    ensures FormatInt(7) == "7"
  {
    assert NatToDecimal(7) == [DigitChar(7)];
  }

  /** The example name has no backslash. */
  lemma NoBackslashInExample()
    ensures '\\' !in "(42)"
  {
    assert "(42)"[0] == '(' && "(42)"[1] == '4' && "(42)"[2] == '2' && "(42)"[3] == ')';
  }

  /** The example label, spelled out. */
  lemma ExampleText()
    ensures "(42)" + " (" + "7" + ")" == "(42) (7)"
  {
  }

  /** As written, the label of a sender named "(42)" with ID 7 is shown as "(42) (7)". */
  lemma ExampleLabelShown()
    ensures UnescapeIn(SenderLabel("(42)", 7), ReservedSet()) == "(42) (7)"
  {
    NoBackslashInExample();
    SenderLabelShown("(42)", 7);
    SevenShown();
    ExampleText();
  }

  /**
    As written, an admin reply to the text forwarded from that sender (ID 7) goes to user 42:
    the name's "(42)" comes first.
  */
  lemma NameRedirectsReply()
    ensures ReplyTargetId(Quoted(VisibleHeadline("(42) (7)") + "\n\nhi", "")) == 42
  {
    ExampleShape();
    ParenDigitsFinds("收到来自用户 ", "42", " (7)" + " 的消息:" + "\n\nhi");
    ParseDigits("42");
  }

  /**
    With the corrected headline, a reply to a forwarded text or to a forwarded media caption
    goes back to the sender, whatever the sender's name.
  */
  lemma CaptionRepliesToSender(sender: User, rest: string)
    requires 0 <= sender.id <= MaxInt64
    ensures var shown := VisibleHeadline(SafeName(sender.firstName) + " (" + FormatInt(sender.id) + ")") + rest;
      && ReplyTargetId(Quoted(shown, "")) == sender.id
      && ReplyTargetId(Quoted("", shown)) == sender.id
  {
    var name := SafeName(sender.firstName);
    var d := FormatInt(sender.id);
    var p := "收到来自用户 " + name + " ";
    var shown := VisibleHeadline(name + " (" + d + ")") + rest;
    assert shown == p + "(" + NatToDecimal(sender.id) + ")" + (" 的消息:" + rest);
    assert '(' !in p by {
      assert forall k :: 0 <= k < |p| ==> p[k] != '(' by {
        assert forall k :: 7 <= k < 7 + |name| ==> p[k] == name[k - 7];
      }
    }
    ReplyFindsUser(p, sender.id, " 的消息:" + rest, "");
    assert ReplyTargetId(Quoted("", shown)) == ReplyTargetId(Quoted(shown, ""));
  }

  /** Dropping opening parentheses adds no character: a backslash-free name stays backslash-free. */
  lemma {:induction false} SafeNameKeepsOut(name: string, c: char)
    requires c !in name
    ensures c !in SafeName(name)
  {
    if name != [] {
      assert name[0] != c;
      SafeNameKeepsOut(name[1..], c);
    }
  }

  /**
    The corrected headline as sent: for a sender whose name has no backslash, the label of
    `Caption` shows as the name without "(" followed by " (id)", and a reply through the
    forwarded text or caption is addressed to the sender.
  */
  lemma CaptionLabelRepliesToSender(sender: User, rest: string)
    requires 0 <= sender.id <= MaxInt64 && '\\' !in sender.firstName
    ensures var shown := VisibleHeadline(UnescapeIn(SenderLabel(SafeName(sender.firstName), sender.id), ReservedSet())) + rest;
      && ReplyTargetId(Quoted(shown, "")) == sender.id
      && ReplyTargetId(Quoted("", shown)) == sender.id
  {
    SafeNameKeepsOut(sender.firstName, '\\');
    SenderLabelShown(SafeName(sender.firstName), sender.id);
    CaptionRepliesToSender(sender, rest);
  }

  /** The keyboard under a forwarded message: open a chat, and block or unblock the sender. */
  function ForwardKeyboard(sender: User, blocked: bool): Markup {
    Keyboard([[UrlButton("与用户对话", "tg://user?id=" + FormatInt(sender.id)),
               if blocked then DataButton("解除拉黑", UnblockPrefix + FormatInt(sender.id))
               else DataButton("拉黑用户", BlockPrefix + FormatInt(sender.id))]])
  }

  /** The admin's block button acts on the sender of the message it sits under. */
  lemma ForwardKeyboardActsOnSender(sender: User, blocked: bool)
    requires IsInt64(sender.id)
    ensures var b := ForwardKeyboard(sender, blocked).rows[0][1];
      DecodeCallback(b.data) == if blocked then Unblock(sender.id) else Block(sender.id)
  {
    DecodeUnblock(sender.id);
    DecodeBlock(sender.id);
  }

  /**
    The copies sent to the admin chat under `headline`: the escaped text, else the largest
    photo, else the sticker followed by the headline, else the video, else the document, else
    a note that the kind is not supported.
  */
  function CopiesUnder(m: Message, admin: int, blocked: bool, headline: string): (out: seq<Outgoing>)
    ensures 1 <= |out| <= 2
    ensures forall k :: 0 <= k < |out| ==> out[k].chat == admin
  {
    var kb := ForwardKeyboard(m.from, blocked);
    if m.text != "" then [Outgoing(admin, Text(headline + "\n\n" + Escape(m.text)), kb)]
    else if |m.photo| > 0 then [Outgoing(admin, Photo(m.photo[|m.photo| - 1], headline), kb)]
    else if m.sticker.Some? then [Outgoing(admin, Sticker(m.sticker.value), NoMarkup), Outgoing(admin, Text(headline), kb)]
    else if m.video.Some? then [Outgoing(admin, Video(m.video.value, headline), kb)]
    else if m.document.Some? then [Outgoing(admin, Document(m.document.value, headline), kb)]
    else [Outgoing(admin, Text(headline + "\n\n[不支持的消息类型]"), kb)]
  }

  /** The copies handleUserMessage sends, under the headline as the dispatcher writes it. */
  function ForwardCopies(m: Message, admin: int, blocked: bool): seq<Outgoing> {
    CopiesUnder(m, admin, blocked, CaptionAsWritten(m.from))
  }

  /** The copies under the corrected headline. */
  function ForwardCopiesCorrected(m: Message, admin: int, blocked: bool): seq<Outgoing> {
    CopiesUnder(m, admin, blocked, Caption(m.from))
  }

  /** The kinds a user's message has, in the order the relay tries them. */
  function ForwardKinds(m: Message): seq<Kind> {
    (if m.text != "" then [TextKind] else [])
    + (if |m.photo| > 0 then [PhotoKind] else [])
    + (if m.sticker.Some? then [StickerKind] else [])
    + (if m.video.Some? then [VideoKind] else [])
    + (if m.document.Some? then [DocumentKind] else [])
  }

  /** No backslash in `s` stands before a reserved character. */
  predicate Unambiguous(s: string) {
    forall k :: 0 <= k < |s| - 1 ==> !(s[k] == '\\' && s[k + 1] in ReservedSet())
  }

  /**
    What the admin receives: the first kind the message has is relayed; the last copy carries
    the sender's keyboard; media carry the headline as caption, a sticker is followed by the
    headline; a text is the headline, a blank line and the text, escaped so that the client
    shows it as written.
  */
  lemma CopiesSpec(m: Message, admin: int, blocked: bool, headline: string)
    ensures var out := CopiesUnder(m, admin, blocked, headline);
      && out[|out| - 1].markup == ForwardKeyboard(m.from, blocked)
      && (|out| == 2 <==> ForwardKinds(m) != [] && ForwardKinds(m)[0] == StickerKind)
      && (ForwardKinds(m) != [] ==> KindOf(out[0].content) == Some(ForwardKinds(m)[0]))
      && (ForwardKinds(m) == [] ==> out[0].content == Text(headline + "\n\n[不支持的消息类型]"))
      && (|out| == 2 ==> out[0] == Outgoing(admin, Sticker(m.sticker.value), NoMarkup) && out[1].content == Text(headline))
      && (out[0].content.Photo? ==> out[0].content == Photo(m.photo[|m.photo| - 1], headline))
      && (out[0].content.Video? || out[0].content.Document? ==> out[0].content.caption == headline)
    ensures m.text != "" ==>
      var t := CopiesUnder(m, admin, blocked, headline)[0].content;
      && t.Text? && |t.text| >= |headline| + 2 && t.text[..|headline| + 2] == headline + "\n\n"
      && |t.text[|headline| + 2..]| == |m.text| + CountIn(m.text, ReservedSet())
      && (Unambiguous(m.text) ==> UnescapeIn(t.text[|headline| + 2..], ReservedSet()) == m.text)
  {
    if m.text != "" {
      var t := headline + "\n\n" + Escape(m.text);
      DropPrefix(headline + "\n\n", Escape(m.text));
      EscapeLength(m.text, ReservedSet());
      if Unambiguous(m.text) {
        ReservedFacts();
        UnescapeEscape(m.text, ReservedSet());
      }
    }
  }

  /** A name made of backslash-free parts around "(digits)" has no backslash. */
  lemma NameNoBackslash(p: string, d: string, q: string)
    requires '\\' !in p && '\\' !in q && AllDigits(d)
    ensures '\\' !in p + "(" + d + ")" + q
  {
    var name := p + "(" + d + ")" + q;
    assert forall k :: 0 <= k < |name| ==> name[k] != '\\' by {
      assert forall k :: 0 <= k < |p| ==> name[k] == p[k];
      assert forall k :: |p| + 1 <= k < |p| + 1 + |d| ==> name[k] == d[k - |p| - 1];
      assert forall k :: |p| + |d| + 2 <= k < |name| ==> name[k] == q[k - |p| - |d| - 2];
    }
  }

  /** The headline's fixed opening followed by a part without "(" has no "(". */
  lemma OpeningNoParen(p: string)
    requires '(' !in p
    ensures '(' !in "收到来自用户 " + p
  {
    var pre := "收到来自用户 " + p;
    assert forall k :: 0 <= k < |pre| ==> pre[k] != '(' by {
      assert forall k :: 7 <= k < |pre| ==> pre[k] == p[k - 7];
    }
  }

  /** The visible headline of such a name splits around the name's "(digits)". */
  lemma AnyNameShape(p: string, d: string, q: string, f: string, rest: string)
    ensures VisibleHeadline(p + "(" + d + ")" + q + " (" + f + ")") + rest
      == ("收到来自用户 " + p) + "(" + d + ")" + (q + " (" + f + ")" + " 的消息:" + rest)
  {
  }

  /**
    As written, a sender whose first name holds a "(digits)" after a part without "(" has
    admin replies to the relayed text addressed to those digits, not to the sender.
  */
  lemma NameRedirectsAnyReply(p: string, n: nat, q: string, id: nat, rest: string)
    requires '(' !in p && '\\' !in p && '\\' !in q && n <= MaxInt64
    ensures var name := p + "(" + NatToDecimal(n) + ")" + q;
      ReplyTargetId(Quoted(VisibleHeadline(UnescapeIn(SenderLabel(name, id), ReservedSet())) + rest, "")) == n
  {
    var d := NatToDecimal(n);
    NameNoBackslash(p, d, q);
    SenderLabelShown(p + "(" + d + ")" + q, id);
    AnyNameShape(p, d, q, FormatInt(id), rest);
    OpeningNoParen(p);
    ReplyFindsUser("收到来自用户 " + p, n, q + " (" + FormatInt(id) + ")" + " 的消息:" + rest, "");
  }
}
