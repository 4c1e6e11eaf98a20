/**
  The slash-command services of reminder/services: argument checks, the
  request objects handed to storage, the reminder table, the deletion report
  and the texts of the errors. Storage is a parameter: a map from id to
  reminder for the rows that deletion reads and removes, and functions that
  say whether a write fails and with which error text.
*/
module Services {
  import opened Wrappers
  import opened Text
  import opened StrConv
  import opened Models

  const WrongArgCount: ErrorText := "wrong argument count"

  // MMReminderCreate

  /** The reminder MMReminderCreate asks storage to create; None when there are fewer than four tokens. */
  function CreateRequest(req: MmRequest, tokens: seq<string>): (dto: Option<ReminderDto>)
    ensures dto.None? <==> |tokens| < 4
    ensures dto.Some? ==>
      && dto.value.name == tokens[1] && dto.value.rule == tokens[2] && dto.value.message == tokens[3]
      && dto.value.owner == req.userName && dto.value.channel == req.channelName
  {
    if |tokens| < 4 then None
    else Some(ReminderDto(tokens[1], req.userName, tokens[2], req.channelName, tokens[3]))
  }

  /**
    The storage steps of CreateReminder: the cron library's verdict on a rule
    (its error text, if any), the INSERT (the id it assigns and the time it
    stamps, or its error text) and the read-back of the new row (its error
    text, if any).
  */
  datatype Creation = Creation(
    ruleError: string -> Option<string>,
    insert: ReminderDto -> Result<(int, Instant), string>,
    readFault: int -> Option<string>)

  /** The row the INSERT writes: every field of the request, under the new id, created and modified at the insert time. */
  function NewRow(dto: ReminderDto, id: int, at: Instant): (r: Reminder)
    ensures r.id == id && r.owner == Some(dto.owner) && r.createdAt == at && r.modifiedAt == at
    ensures r.name == dto.name && r.rule == dto.rule && r.channel == dto.channel && r.message == dto.message
  {
    Reminder(id, Some(dto.owner), dto.name, dto.rule, dto.channel, dto.message, at, at)
  }

  /**
    CreateReminder: a rule the cron library rejects or a failed INSERT leaves
    storage as it was; otherwise the new row is stored under its id, and the
    id is returned unless reading the row back fails. The result is the
    outcome and the rows afterwards.
  */
  function CreateReminder(store: map<int, Reminder>, c: Creation, dto: ReminderDto): (res: (Result<int, ErrorText>, map<int, Reminder>))
    ensures c.ruleError(dto.rule).Some? ==> res == (Err("parse cron expr: " + c.ruleError(dto.rule).value), store)
    ensures c.ruleError(dto.rule).None? && c.insert(dto).Err? ==> res == (Err("create reminder: " + c.insert(dto).error), store)
    ensures c.ruleError(dto.rule).None? && c.insert(dto).Ok? ==>
      var (id, at) := c.insert(dto).value;
      && res.1 == store[id := NewRow(dto, id, at)]
      && res.0 == if c.readFault(id).Some? then Err("get created reminder: " + c.readFault(id).value) else Ok(id)
    ensures res.0.Ok? ==> res.0.value in res.1 && res.1[res.0.value] == NewRow(dto, res.0.value, c.insert(dto).value.1)
  {
    if c.ruleError(dto.rule).Some? then (Err("parse cron expr: " + c.ruleError(dto.rule).value), store)
    else
      match c.insert(dto)
      case Err(e) => (Err("create reminder: " + e), store)
      case Ok((id, at)) =>
        var after := store[id := NewRow(dto, id, at)];
        if c.readFault(id).Some? then (Err("get created reminder: " + c.readFault(id).value), after)
        else (Ok(id), after)
  }

  /** MMReminderCreate: the wrong-count error, or whatever CreateReminder reports; the result is the error and the rows afterwards. */
  function ReminderCreate(req: MmRequest, tokens: seq<string>, store: map<int, Reminder>, c: Creation): (res: (Option<ErrorText>, map<int, Reminder>))
    ensures |tokens| < 4 ==> res == (Some(WrongArgCount), store)
    ensures |tokens| >= 4 ==>
      var made := CreateReminder(store, c, CreateRequest(req, tokens).value);
      && res.1 == made.1
      && (res.0.None? <==> made.0.Ok?)
      && (made.0.Err? ==> res.0 == Some(made.0.error))
  {
    match CreateRequest(req, tokens)
    case None => (Some(WrongArgCount), store)
    case Some(dto) =>
      var made := CreateReminder(store, c, dto);
      (if made.0.Err? then Some(made.0.error) else None, made.1)
  }

  /**
    A command that creates a reminder, followed by one that deletes its id
    from the same channel, deletes it; when the id was new, storage ends as it
    began.
  */
  lemma CreateThenDelete(req: MmRequest, tokens: seq<string>, store: map<int, Reminder>, c: Creation, deleteFault: int -> Option<string>)
    requires |tokens| >= 4
    requires CreateReminder(store, c, CreateRequest(req, tokens).value).0.Ok?
    requires IsInt64(CreateReminder(store, c, CreateRequest(req, tokens).value).0.value)
    ensures var id := CreateReminder(store, c, CreateRequest(req, tokens).value).0.value;
      var created := ReminderCreate(req, tokens, store, c);
      var removed := Collect(created.1, deleteFault, req.channelName, [FormatInt(id)]);
      && created.0.None?
      && (deleteFault(id).None? ==> removed == Collection([id], [], created.1 - {id}))
      && (deleteFault(id).None? && id !in store ==> removed.store == store)
  {
    var id := CreateReminder(store, c, CreateRequest(req, tokens).value).0.value;
    var created := ReminderCreate(req, tokens, store, c);
    FormatParse(id);
    assert [FormatInt(id)][..0] == [];
    if id !in store {
      assert created.1 - {id} == store;
    }
  }

  // rmLineBreaks and the reminder table

  /** rmLineBreaks: text up to its first line break, marked " ..." when something was cut. */
  function RmLineBreaks(s: string): (r: string)
    ensures '\n' !in r
    ensures '\n' !in s ==> r == s
    ensures '\n' in s ==> |r| >= 4 && r[|r| - 4..] == " ..."
    ensures '\n' in s ==> |r| - 4 < |s| && s[..|r| - 4] == r[..|r| - 4] && s[|r| - 4] == '\n'
  {
    var pos := IndexOf(s, '\n');
    if pos != -1 then
      var r := s[..pos] + " ...";
      assert r[..|r| - 4] == s[..pos];
      r
    else s
  }

  const NoReminders: string := "There are no reminders in this channel yet! Add a new one using `/reminder add ...`"

  /** A table line: every cell after a "|", then a closing "|" and a line break. */
  function Line(cells: seq<string>): string
  {
    if cells == [] then "|\n" else "|" + cells[0] + Line(cells[1..])
  }

  /** A line holds exactly one line break when no cell holds one. */
  lemma {:induction false} LineBreaks(cells: seq<string>)
    requires forall i :: 0 <= i < |cells| ==> '\n' !in cells[i]
    ensures Count(Line(cells), '\n') == 1
  {
    if cells == [] {
      CountLine("|");
      assert "|" + "\n" == "|\n";
    } else {
      LineBreaks(cells[1..]);
      CountAbsent("|" + cells[0], '\n');
      CountAppend("|" + cells[0], Line(cells[1..]), '\n');
      assert Line(cells) == ("|" + cells[0]) + Line(cells[1..]);
    }
  }

  /** The two header lines of the table: the column titles, then the Markdown rule. */
  const ListHeader: string :=
    Line(["Id", "Name", "Owner", "Channel", "Rule", "Message"]) + Line(["-", "-", "-", "-", "-", "-"])

  /** The cells of a reminder's row: the id in decimal, then name, owner, channel, rule and message. */
  function Cells(r: Reminder): seq<string>
  {
    [FormatInt(r.id), RmLineBreaks(r.name), OwnerString(r.owner), r.channel, r.rule, RmLineBreaks(r.message)]
  }

  function Row(r: Reminder): string
  {
    Line(Cells(r))
  }

  function Rows(rs: seq<Reminder>): (rows: seq<string>)
    ensures |rows| == |rs| && forall i :: 0 <= i < |rs| ==> rows[i] == Row(rs[i])
  {
    seq(|rs|, i requires 0 <= i < |rs| => Row(rs[i]))
  }

  /** The table of a non-empty list: the two header lines, then one row per reminder in order. */
  function Table(rs: seq<Reminder>): string
  {
    ListHeader + Concat(Rows(rs))
  }

  /**
    What MMReminderList returns for what the channel query returned: the
    query's error wrapped, the fixed hint for an empty channel, or the table.
  */
  function ListText(fetched: Result<seq<Reminder>, string>): (r: Result<string, string>)
    ensures fetched.Err? ==> r == Err("get reminders by channel: " + fetched.error)
    ensures fetched.Ok? && fetched.value == [] ==> r == Ok(NoReminders)
    ensures fetched.Ok? && fetched.value != [] ==>
      r.Ok? && |r.value| >= |ListHeader| && r.value[..|ListHeader|] == ListHeader && r.value[|ListHeader|..] == Concat(Rows(fetched.value))
  {
    match fetched
    case Err(e) => Err("get reminders by channel: " + e)
    case Ok(reminders) => if |reminders| > 0 then Ok(Table(reminders)) else Ok(NoReminders)
  }

  /** MMReminderList, writing the table row by row. */
  method ReminderList(fetched: Result<seq<Reminder>, string>) returns (r: Result<string, string>)
    ensures r == ListText(fetched)
  {
    if fetched.Err? {
      return Err("get reminders by channel: " + fetched.error);
    }
    var reminders := fetched.value;
    if |reminders| > 0 {
      var rows := WriteAll(Rows(reminders));
      return Ok(ListHeader + rows);
    }
    return Ok(NoReminders);
  }

  lemma CountLine(a: string)
    requires '\n' !in a
    ensures Count(a + "\n", '\n') == 1
  {
    CountAppend(a, "\n", '\n');
    CountAbsent(a, '\n');
  }

  lemma HeaderBreaks()
    ensures Count(ListHeader, '\n') == 2
  {
    var titles, rules := ["Id", "Name", "Owner", "Channel", "Rule", "Message"], ["-", "-", "-", "-", "-", "-"];
    LineBreaks(titles);
    LineBreaks(rules);
    CountAppend(Line(titles), Line(rules), '\n');
  }

  lemma RowBreaks(r: Reminder)
    requires '\n' !in OwnerString(r.owner) && '\n' !in r.channel && '\n' !in r.rule
    ensures Count(Row(r), '\n') == 1
  {
    var cells := Cells(r);
    assert '\n' !in cells[0];
    LineBreaks(cells);
  }

  /**
    Names and messages never break a row: a table has exactly two lines more
    than it has reminders, as long as owners, channels and rules hold no line
    break.
  */
  lemma TableLines(rs: seq<Reminder>)
    requires forall i :: 0 <= i < |rs| ==>
      '\n' !in OwnerString(rs[i].owner) && '\n' !in rs[i].channel && '\n' !in rs[i].rule
    ensures Count(Table(rs), '\n') == 2 + |rs|
  {
    var rows := Rows(rs);
    forall i | 0 <= i < |rs|
      ensures Count(rows[i], '\n') == 1
    {
      RowBreaks(rs[i]);
    }
    CountConcat(rows, '\n');
    HeaderBreaks();
    CountAppend(ListHeader, Concat(rows), '\n');
  }

  // deleteRemindersAndCollect

  /** An id that was not deleted, with the reason. */
  datatype Undeleted = Undeleted(id: int, err: string)

  /** What happened to one id token. */
  datatype Outcome = Removed(id: int) | Kept(undel: Undeleted)

  /** The text of sql.ErrNoRows, which the lookup of a missing row reports. */
  const NoRows: string := "sql: no rows in result set"

  /** The error kept for a reminder of another channel. */
  function InvalidAccess(id: int, owned: string, channel: string): string
  {
    "get reminder: invalid access: reminder " + FormatInt(id) + " belongs to channel '"
    + owned + "' and cannot be deleted from channel '" + channel + "'"
  }

  /**
    One token of a delete command: parse it as an id, look the reminder up,
    check that it belongs to the request's channel (ignoring case), delete it.
    The first step that fails keeps the id with its error; storage changes only
    when the reminder is deleted.
  */
  function Attempt(store: map<int, Reminder>, deleteFault: int -> Option<string>, channel: string, tok: string): (res: (Outcome, map<int, Reminder>))
    ensures res.0.Removed? <==>
      && ParseInt(tok).err.None? && ParseInt(tok).value in store
      && EqualFold(store[ParseInt(tok).value].channel, channel) && deleteFault(ParseInt(tok).value).None?
    ensures res.0.Removed? ==> res.0.id == ParseInt(tok).value && res.1 == store - {res.0.id}
    ensures res.0.Kept? ==> res.0.undel.id == ParseInt(tok).value && res.1 == store
    ensures ParseInt(tok).err.None? && ParseInt(tok).value !in store ==>
      res.0 == Kept(Undeleted(ParseInt(tok).value, "get reminder: " + NoRows))
    ensures var id := ParseInt(tok).value;
      ParseInt(tok).err.None? && id in store && !EqualFold(store[id].channel, channel) ==>
      res.0 == Kept(Undeleted(id, InvalidAccess(id, store[id].channel, channel)))
  {
    var p := ParseInt(tok);
    var id := p.value;
    if p.err.Some? then
      (Kept(Undeleted(id, "parse id: " + NumErrorText(tok, p.err.value))), store)
    else if id !in store then
      (Kept(Undeleted(id, "get reminder: " + NoRows)), store)
    else if !EqualFold(store[id].channel, channel) then
      (Kept(Undeleted(id, InvalidAccess(id, store[id].channel, channel))), store)
    else
      match deleteFault(id)
      case Some(e) => (Kept(Undeleted(id, "delete reminder from database: " + e)), store)
      case None => (Removed(id), store - {id})
  }

  /** The two lists deleteRemindersAndCollect returns, and the rows left in storage. */
  datatype Collection = Collection(deleted: seq<int>, undels: seq<Undeleted>, store: map<int, Reminder>)

  /** One outcome appended to its list, with the rows left after it. */
  function Extend(c: Collection, outcome: Outcome, after: map<int, Reminder>): Collection
  {
    match outcome
    case Removed(id) => Collection(c.deleted + [id], c.undels, after)
    case Kept(u) => Collection(c.deleted, c.undels + [u], after)
  }

  /** The tokens in order, each outcome appended to its list. */
  function Collect(store: map<int, Reminder>, deleteFault: int -> Option<string>, channel: string, toks: seq<string>): Collection
  {
    if toks == [] then Collection([], [], store)
    else
      var c := Collect(store, deleteFault, channel, toks[..|toks| - 1]);
      var res := Attempt(c.store, deleteFault, channel, toks[|toks| - 1]);
      Extend(c, res.0, res.1)
  }

  /**
    Every token lands in exactly one of the two lists; a deleted id named a
    reminder of the request's channel (ignoring case), is deleted once only,
    and is exactly what storage lost.
  */
  lemma {:induction false} CollectSound(store: map<int, Reminder>, deleteFault: int -> Option<string>, channel: string, toks: seq<string>)
    ensures var c := Collect(store, deleteFault, channel, toks);
      && |c.deleted| + |c.undels| == |toks|
      && (forall i :: 0 <= i < |c.deleted| ==> c.deleted[i] in store && EqualFold(store[c.deleted[i]].channel, channel))
      && (forall i, j :: 0 <= i < j < |c.deleted| ==> c.deleted[i] != c.deleted[j])
      && (forall k :: k in c.store <==> k in store && k !in c.deleted)
      && (forall k :: k in c.store ==> c.store[k] == store[k])
  {
    if toks != [] {
      CollectSound(store, deleteFault, channel, toks[..|toks| - 1]);
    }
  }

  /** The lists for a prefix of the tokens are prefixes of the lists for all of them. */
  lemma {:induction false} CollectPrefix(store: map<int, Reminder>, deleteFault: int -> Option<string>, channel: string, toks: seq<string>, i: nat)
    requires i <= |toks|
    ensures var a, c := Collect(store, deleteFault, channel, toks[..i]), Collect(store, deleteFault, channel, toks);
      a.deleted <= c.deleted && a.undels <= c.undels
  {
    if i < |toks| {
      var front := toks[..|toks| - 1];
      assert front[..i] == toks[..i];
      CollectPrefix(store, deleteFault, channel, front, i);
    } else {
      assert toks[..i] == toks;
    }
  }

  /**
    The lists keep the order of the tokens: token i, tried on the rows left by
    the tokens before it, puts its outcome right after the entries those
    tokens put in the same list.
  */
  lemma CollectAt(store: map<int, Reminder>, deleteFault: int -> Option<string>, channel: string, toks: seq<string>, i: nat)
    requires i < |toks|
    ensures var a := Collect(store, deleteFault, channel, toks[..i]);
      var res := Attempt(a.store, deleteFault, channel, toks[i]);
      var c := Collect(store, deleteFault, channel, toks);
      && (res.0.Removed? ==> |a.deleted| < |c.deleted| && c.deleted[|a.deleted|] == res.0.id)
      && (res.0.Kept? ==> |a.undels| < |c.undels| && c.undels[|a.undels|] == res.0.undel)
  {
    var next := toks[..i + 1];
    assert next[..i] == toks[..i];
    CollectPrefix(store, deleteFault, channel, toks, i + 1);
  }

  /**
    Measured against the rows storage held at the start: a token naming a
    reminder of the channel that no earlier token deleted is deleted (unless
    storage refuses), and one naming a reminder of another channel is kept
    with the invalid-access error.
  */
  lemma CollectDecides(store: map<int, Reminder>, deleteFault: int -> Option<string>, channel: string, toks: seq<string>, i: nat)
    requires i < |toks| && ParseInt(toks[i]).err.None? && ParseInt(toks[i]).value in store
    ensures var id, a := ParseInt(toks[i]).value, Collect(store, deleteFault, channel, toks[..i]);
      var c := Collect(store, deleteFault, channel, toks);
      && (EqualFold(store[id].channel, channel) && id !in a.deleted && deleteFault(id).None? ==>
            |a.deleted| < |c.deleted| && c.deleted[|a.deleted|] == id)
      && (!EqualFold(store[id].channel, channel) ==>
            |a.undels| < |c.undels| && c.undels[|a.undels|] == Undeleted(id, InvalidAccess(id, store[id].channel, channel)))
  {
    var id := ParseInt(toks[i]).value;
    CollectSound(store, deleteFault, channel, toks[..i]);
    CollectAt(store, deleteFault, channel, toks, i);
    var a := Collect(store, deleteFault, channel, toks[..i]);
    if !EqualFold(store[id].channel, channel) && id in a.store {
      assert a.store[id] == store[id];
    }
  }

  /** One pass of the loop of deleteRemindersAndCollect: each failing step keeps the id and skips the rest. */
  method DeleteOne(store: map<int, Reminder>, deleteFault: int -> Option<string>, channel: string, tok: string)
    returns (outcome: Outcome, after: map<int, Reminder>)
    ensures (outcome, after) == Attempt(store, deleteFault, channel, tok)
  {
    after := store;
    var p := ParseInt(tok);
    var id := p.value;
    if p.err.Some? {
      return Kept(Undeleted(id, "parse id: " + NumErrorText(tok, p.err.value))), after;
    }
    if id !in store {
      return Kept(Undeleted(id, "get reminder: " + NoRows)), after;
    }
    if !EqualFold(store[id].channel, channel) {
      return Kept(Undeleted(id, InvalidAccess(id, store[id].channel, channel))), after;
    }
    var fault := deleteFault(id);
    if fault.Some? {
      return Kept(Undeleted(id, "delete reminder from database: " + fault.value)), after;
    }
    after := store - {id};
    outcome := Removed(id);
  }

  /** deleteRemindersAndCollect over the tokens after the command word. */
  method DeleteRemindersAndCollect(store: map<int, Reminder>, deleteFault: int -> Option<string>, channel: string, tokens: seq<string>)
    returns (deleted: seq<int>, undels: seq<Undeleted>, after: map<int, Reminder>)
    requires |tokens| >= 1
    ensures Collection(deleted, undels, after) == Collect(store, deleteFault, channel, tokens[1..])
  {
    var ids := tokens[1..];
    deleted, undels, after := [], [], store;
    for i := 0 to |ids|
      invariant Collection(deleted, undels, after) == Collect(store, deleteFault, channel, ids[..i])
    {
      assert ids[..i + 1][..i] == ids[..i];
      ghost var before := Collection(deleted, undels, after);
      var outcome;
      outcome, after := DeleteOne(after, deleteFault, channel, ids[i]);
      match outcome {
        case Removed(id) => deleted := deleted + [id];
        case Kept(u) => undels := undels + [u];
      }
      assert Collection(deleted, undels, after) == Extend(before, outcome, after);
    }
    assert ids[..|ids|] == ids;
  }

  // constructMessage

  function ErrorLine(u: Undeleted): string
  {
    "Error deleting " + FormatInt(u.id) + " reminder: " + u.err + "\n"
  }

  function ErrorLines(undels: seq<Undeleted>): (lines: seq<string>)
    ensures |lines| == |undels| && forall i :: 0 <= i < |undels| ==> lines[i] == ErrorLine(undels[i])
  {
    seq(|undels|, i requires 0 <= i < |undels| => ErrorLine(undels[i]))
  }

  function IdTexts(ids: seq<int>): (texts: seq<string>)
    ensures |texts| == |ids| && forall i :: 0 <= i < |ids| ==> texts[i] == FormatInt(ids[i])
  {
    seq(|ids|, i requires 0 <= i < |ids| => FormatInt(ids[i]))
  }

  /**
    The deletion report: one error line per undeleted id, in order, then, only
    when something was deleted, a blank line, "Successfully deleted: " and the
    deleted ids joined by ", ".
  */
  function Message(deleted: seq<int>, undels: seq<Undeleted>): string
  {
    Concat(ErrorLines(undels))
    + if |deleted| > 0 then "\nSuccessfully deleted: " + Join(IdTexts(deleted), ", ") + "\n" else ""
  }

  /** The report is empty exactly when nothing was deleted and nothing failed. */
  lemma MessageEmpty(deleted: seq<int>, undels: seq<Undeleted>)
    ensures Message(deleted, undels) == "" <==> deleted == [] && undels == []
  {
    var lines := ErrorLines(undels);
    if undels != [] {
      assert Concat(lines) == Concat(lines[..|lines| - 1]) + ErrorLine(undels[|undels| - 1]);
    }
  }

  /** The first loop of constructMessage: one error line per undeleted id. */
  method WriteErrorLines(undels: seq<Undeleted>) returns (sb: string)
    ensures sb == Concat(ErrorLines(undels))
  {
    ghost var lines := ErrorLines(undels);
    sb := "";
    for i := 0 to |undels|
      invariant sb == Concat(lines[..i])
    {
      assert lines[..i + 1][..i] == lines[..i];
      var line := ErrorLine(undels[i]);
      sb := sb + line;
    }
    assert lines[..|undels|] == lines;
  }

  /** The second loop of constructMessage: the deleted ids, ", " before every one but the first. */
  method WriteIds(deleted: seq<int>) returns (sb: string)
    ensures sb == Join(IdTexts(deleted), ", ")
  {
    ghost var texts := IdTexts(deleted);
    sb := "";
    for i := 0 to |deleted|
      invariant sb == Join(texts[..i], ", ")
    {
      if i != 0 {
        sb := sb + ", ";
        assert texts[..i + 1] == texts[..i] + [texts[i]];
        JoinSnoc(texts[..i], texts[i], ", ");
      } else {
        assert texts[..1] == [texts[0]];
      }
      sb := sb + FormatInt(deleted[i]);
    }
    assert texts[..|deleted|] == texts;
  }

  /** constructMessage. */
  method ConstructMessage(deleted: seq<int>, undels: seq<Undeleted>) returns (msg: string)
    ensures msg == Message(deleted, undels)
  {
    msg := WriteErrorLines(undels);
    if |deleted| > 0 {
      var ids := WriteIds(deleted);
      msg := msg + "\nSuccessfully deleted: " + ids + "\n";
    }
  }

  /** MMReminderDelete: at least one id is needed; otherwise the report of deleting them. */
  method ReminderDelete(store: map<int, Reminder>, deleteFault: int -> Option<string>, req: MmRequest, tokens: seq<string>)
    returns (r: Result<string, ErrorText>, after: map<int, Reminder>)
    ensures |tokens| < 2 ==> r == Err(WrongArgCount) && after == store
    ensures |tokens| >= 2 ==>
      var c := Collect(store, deleteFault, req.channelName, tokens[1..]);
      r == Ok(Message(c.deleted, c.undels)) && after == c.store
  {
    if |tokens| < 2 {
      return Err(WrongArgCount), store;
    }
    var deleted, undels;
    deleted, undels, after := DeleteRemindersAndCollect(store, deleteFault, req.channelName, tokens);
    var msg := ConstructMessage(deleted, undels);
    r := Ok(msg);
  }

  // Time zone, owner and webhook

  /**
    MMReminderTimeZoneSet: the zone named by the second token is checked with
    time.LoadLocation (loadError gives its error text) and written for the
    request's channel (insert gives the write's error text).
  */
  function ReminderTimeZoneSet(req: MmRequest, tokens: seq<string>, loadError: string -> Option<string>, insert: Channel -> Option<string>): (r: Result<string, string>)
    requires |tokens| >= 2
    ensures r.Ok? <==> loadError(tokens[1]).None? && insert(Channel(req.channelName, tokens[1])).None?
    ensures r.Ok? ==> r.value == tokens[1]
    ensures loadError(tokens[1]).Some? ==> r == Err("parse timezone: " + loadError(tokens[1]).value)
  {
    var zone := tokens[1];
    match loadError(zone)
    case Some(e) => Err("parse timezone: " + e)
    case None =>
      match insert(Channel(req.channelName, zone))
      case Some(e) => Err("insert channel: " + e)
      case None => Ok(zone)
  }

  /** MMReminderTimeZoneGet, given the channel lookup's result. */
  function ReminderTimeZoneGet(req: MmRequest, channel: Result<Channel, string>, defaultLocation: string): (text: string)
    ensures channel.Ok? ==> text == "Time zone: " + channel.value.timeZone
    ensures channel.Err? ==>
      text == "Time zone is not set for the channel '" + req.channelName + "'. Using default time zone: " + defaultLocation + ".\n"
  {
    match channel
    case Ok(c) => "Time zone: " + c.timeZone
    case Err(_) =>
      "Time zone is not set for the channel '" + req.channelName + "'. Using default time zone: " + defaultLocation + ".\n"
  }

  /** The confirmation MMReminderChangeOwner sends. */
  function OwnerChanged(id: int, user: string): string
  {
    "Owner of reminder '" + FormatInt(id) + "' successfully changed to '" + user + "'\n"
  }

  /** MMReminderChangeOwner: the second token is the id whose owner becomes the requesting user (update gives the write's error text). */
  function ReminderChangeOwner(req: MmRequest, tokens: seq<string>, update: (int, string) -> Option<string>): (r: Result<string, ErrorText>)
    ensures |tokens| <= 1 ==> r == Err(WrongArgCount)
    ensures |tokens| > 1 && ParseInt(tokens[1]).err.Some? ==>
      r == Err("change owner: parse int: " + NumErrorText(tokens[1], ParseInt(tokens[1]).err.value))
    ensures r.Ok? <==> |tokens| > 1 && ParseInt(tokens[1]).err.None? && update(ParseInt(tokens[1]).value, req.userName).None?
    ensures r.Ok? ==> r.value == OwnerChanged(ParseInt(tokens[1]).value, req.userName)
  {
    if |tokens| <= 1 then Err(WrongArgCount)
    else
      var p := ParseInt(tokens[1]);
      if p.err.Some? then Err("change owner: parse int: " + NumErrorText(tokens[1], p.err.value))
      else
        match update(p.value, req.userName)
        case Some(e) => Err("change owner: update reminder: " + e)
        case None => Ok(OwnerChanged(p.value, req.userName))
  }

  /** getLastUrlPart: what follows the last slash, or the whole text when there is none. */
  function LastUrlPart(url: string): (r: string)
    ensures '/' !in r
    ensures |r| <= |url| && url[|url| - |r|..] == r
    ensures |r| < |url| ==> url[|url| - |r| - 1] == '/'
    ensures '/' !in url ==> r == url
  {
    var parts := Split(url, '/');
    SplitLast(url, '/');
    parts[|parts| - 1]
  }

  /** The user row MMReminderSetWebhook writes: the requesting user with the last part of the webhook URL, marked valid. */
  function WebhookUser(req: MmRequest, webhook: string): (u: User)
    ensures u.name == req.userName && u.webhook == Some(LastUrlPart(webhook))
  {
    User(req.userName, Some(LastUrlPart(webhook)))
  }

  /** MMReminderSetWebhook (urlError gives url.Parse's error text, insert the write's). */
  function ReminderSetWebhook(req: MmRequest, tokens: seq<string>, urlError: string -> Option<string>, insert: User -> Option<string>): (r: Result<string, ErrorText>)
    ensures |tokens| <= 1 ==> r == Err(WrongArgCount)
    ensures r.Ok? <==> |tokens| > 1 && urlError(tokens[1]).None? && insert(WebhookUser(req, tokens[1])).None?
    ensures r.Ok? ==> r.value == "Webhook successfully updated"
  {
    if |tokens| <= 1 then Err(WrongArgCount)
    else
      var webhook := tokens[1];
      var user := WebhookUser(req, webhook);
      if urlError(webhook).Some? then Err("set webhook: parse url: " + urlError(webhook).value)
      else if insert(user).Some? then Err("set webhook: insert webhook: " + insert(user).value)
      else Ok("Webhook successfully updated")
  }
}
