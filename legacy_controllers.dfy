/**
  The first version of the slash-command handler (controllers/slashCommands.go):
  no header check, three commands, a create that takes no message, a delete
  of a single id and a channel-blind list. Storage and the application lookup
  are parameters; the tokenizer is the same as the newer handler's.
*/
module LegacyControllers {
  import opened Wrappers
  import opened Text
  import opened StrConv
  import opened Models
  import opened Tokenizer
  import opened Services
  import opened Controllers

  /** The form fields the first handler binds (mattermostRequest): no user name. */
  datatype LegacyRequest = LegacyRequest(channelName: string, command: string, text: string)

  const CreateUsage: string := "Usage: '/reminder create NAME \"CRON-RULE\"'"
  const DeleteUsage: string := "Usage: '/reminder delete ID'"

  // create

  /** The reminder mattermostReminderCreate asks storage for: a name and a rule, no owner and no message. */
  function LegacyCreateRequest(req: LegacyRequest, tokens: seq<string>): (dto: Option<ReminderDto>)
    ensures dto.None? <==> |tokens| < 3
    ensures dto.Some? ==>
      && dto.value.name == tokens[1] && dto.value.rule == tokens[2] && dto.value.channel == req.channelName
      && dto.value.owner == "" && dto.value.message == ""
  {
    if |tokens| < 3 then None else Some(ReminderDto(tokens[1], "", tokens[2], req.channelName, ""))
  }

  /**
    The row the first version's INSERT writes: name, rule and channel under the
    new id, created and modified at the insert time. Its table has no owner and
    no message column; the model stores no owner and an empty message.
  */
  function LegacyNewRow(dto: ReminderDto, id: int, at: Instant): (r: Reminder)
    ensures r.id == id && r.name == dto.name && r.rule == dto.rule && r.channel == dto.channel
    ensures r.owner.None? && r.message == "" && r.createdAt == at && r.modifiedAt == at
  {
    Reminder(id, None, dto.name, dto.rule, dto.channel, "", at, at)
  }

  /**
    mattermostReminderCreate with the first version's CreateReminder: the
    create usage for fewer than three tokens; otherwise the INSERT (the id and
    time it assigns, or its error), then the read-back of the row (its error,
    if any). The result is the reply and the rows afterwards.
  */
  function LegacyCreate(req: LegacyRequest, tokens: seq<string>, store: map<int, Reminder>,
                        insert: ReminderDto -> Result<(int, Instant), string>, readFault: int -> Option<string>): (res: (Reply, map<int, Reminder>))
    ensures res.0.TextReply?
    ensures |tokens| < 3 ==> res == (TextReply(CreateUsage), store)
    ensures |tokens| >= 3 ==>
      var dto := LegacyCreateRequest(req, tokens).value;
      match insert(dto)
      case Err(e) => res == (TextReply("Error: " + e), store)
      case Ok((id, at)) =>
        && res.1 == store[id := LegacyNewRow(dto, id, at)]
        && res.0.text == if readFault(id).Some? then "Error: " + readFault(id).value else "Reminder successfully created"
  {
    match LegacyCreateRequest(req, tokens)
    case None => (TextReply(CreateUsage), store)
    case Some(dto) =>
      match insert(dto)
      case Err(e) => (TextReply("Error: " + e), store)
      case Ok((id, at)) =>
        var after := store[id := LegacyNewRow(dto, id, at)];
        if readFault(id).Some? then (TextReply("Error: " + readFault(id).value), after)
        else (TextReply("Reminder successfully created"), after)
  }

  // list

  /** The header of the first handler's table: four columns. */
  const LegacyHeader: string := Line(["Id", "Name", "Channel", "Rule"]) + Line(["-", "-", "-", "-"])

  /** A row of the first handler's table: id, name, channel and rule, with no line-break removal. */
  function LegacyRow(r: Reminder): string
  {
    Line([FormatInt(r.id), r.name, r.channel, r.rule])
  }

  function LegacyRows(rs: seq<Reminder>): (rows: seq<string>)
    ensures |rows| == |rs| && forall i :: 0 <= i < |rs| ==> rows[i] == LegacyRow(rs[i])
  {
    seq(|rs|, i requires 0 <= i < |rs| => LegacyRow(rs[i]))
  }

  /** mattermostReminderList: the query's error text, or the header and one row per reminder (even for none). */
  method LegacyList(fetched: Result<seq<Reminder>, string>) returns (text: string)
    ensures fetched.Err? ==> text == fetched.error
    ensures fetched.Ok? ==> text == LegacyHeader + Concat(LegacyRows(fetched.value))
  {
    if fetched.Err? {
      return fetched.error;
    }
    var sb := WriteAll(LegacyRows(fetched.value));
    text := LegacyHeader + sb;
  }

  /**
    The table has two lines more than reminders only while no name, channel or
    rule holds a line break: unlike the newer listing, names are not cut.
  */
  lemma LegacyTableLines(rs: seq<Reminder>)
    requires forall i :: 0 <= i < |rs| ==> '\n' !in rs[i].name && '\n' !in rs[i].channel && '\n' !in rs[i].rule
    ensures Count(LegacyHeader + Concat(LegacyRows(rs)), '\n') == 2 + |rs|
  {
    var rows := LegacyRows(rs);
    forall i | 0 <= i < |rs|
      ensures Count(rows[i], '\n') == 1
    {
      var r := rs[i];
      var cells := [FormatInt(r.id), r.name, r.channel, r.rule];
      assert '\n' !in cells[0];
      LineBreaks(cells);
    }
    CountConcat(rows, '\n');
    var titles, rules := ["Id", "Name", "Channel", "Rule"], ["-", "-", "-", "-"];
    LineBreaks(titles);
    LineBreaks(rules);
    CountAppend(Line(titles), Line(rules), '\n');
    CountAppend(LegacyHeader, Concat(rows), '\n');
  }

  // delete

  /** A handler's outcome when it may crash: a reply, or a run-time panic from indexing past the end of the token list. */
  datatype Response = Sent(reply: Reply) | IndexPanic

  /** The single-id delete once the id token exists: a non-integer gets the usage; a failed or missing delete names the id. */
  function DeleteId(tok: string, store: map<int, Reminder>, deleteFault: int -> Option<string>): (res: (Reply, map<int, Reminder>))
    ensures res.0.TextReply?
    ensures ParseInt(tok).err.Some? ==> res == (TextReply(DeleteUsage), store)
    ensures ParseInt(tok).err.None? ==>
      var id := ParseInt(tok).value;
      if id in store && deleteFault(id).None? then res == (TextReply("Reminder successfully deleted"), store - {id})
      else res == (TextReply("Id " + FormatInt(id) + " was not found"), store)
  {
    var p := ParseInt(tok);
    if p.err.Some? then (TextReply(DeleteUsage), store)
    else if p.value !in store || deleteFault(p.value).Some? then
      (TextReply("Id " + FormatInt(p.value) + " was not found"), store)
    else (TextReply("Reminder successfully deleted"), store - {p.value})
  }

  /** mattermostReminderDelete as written: tokens[1] is read without a length check. */
  function DeleteAsWritten(tokens: seq<string>, store: map<int, Reminder>, deleteFault: int -> Option<string>): (res: (Response, map<int, Reminder>))
    ensures |tokens| < 2 <==> res.0 == IndexPanic
    ensures |tokens| >= 2 ==> res == (Sent(DeleteId(tokens[1], store, deleteFault).0), DeleteId(tokens[1], store, deleteFault).1)
  {
    if |tokens| < 2 then (IndexPanic, store)
    else
      var (rep, after) := DeleteId(tokens[1], store, deleteFault);
      (Sent(rep), after)
  }

  /** A bare "/reminder rm" reaches the delete handler with one token and crashes it. */
  lemma BareDeletePanics(store: map<int, Reminder>, deleteFault: int -> Option<string>)
    ensures RouteOfLegacy("/reminder", Tokens("rm")) == DeleteRoute
    ensures DeleteAsWritten(Tokens("rm"), store, deleteFault).0 == IndexPanic
  {
    var s := "rm";
    assert WordLength(s[2..]) == 0;
    assert WordLength(s) == 2;
    assert s[..2] == "rm";
    assert Matches(s) == ["rm"];
    assert Tokens(s) == ["rm"];
    assert EqualFold("/reminder", "/reminder");
  }

  /** The delete the usage text evidently intends: without an id, the delete usage. */
  function DeleteGuarded(tokens: seq<string>, store: map<int, Reminder>, deleteFault: int -> Option<string>): (res: (Reply, map<int, Reminder>))
    ensures |tokens| < 2 ==> res == (TextReply(DeleteUsage), store)
    ensures |tokens| >= 2 ==> DeleteAsWritten(tokens, store, deleteFault) == (Sent(res.0), res.1)
  {
    if |tokens| < 2 then (TextReply(DeleteUsage), store) else DeleteId(tokens[1], store, deleteFault)
  }

  /**
    A created reminder can be deleted by its id; when the id was new, storage
    ends as it began.
  */
  lemma LegacyCreateThenDelete(req: LegacyRequest, tokens: seq<string>, store: map<int, Reminder>,
                               insert: ReminderDto -> Result<(int, Instant), string>, readFault: int -> Option<string>,
                               deleteFault: int -> Option<string>)
    requires |tokens| >= 3 && insert(LegacyCreateRequest(req, tokens).value).Ok?
    requires IsInt64(insert(LegacyCreateRequest(req, tokens).value).value.0)
    ensures var id := insert(LegacyCreateRequest(req, tokens).value).value.0;
      var created := LegacyCreate(req, tokens, store, insert, readFault);
      var removed := DeleteAsWritten(["rm", FormatInt(id)], created.1, deleteFault);
      && (deleteFault(id).None? ==> removed == (Sent(TextReply("Reminder successfully deleted")), created.1 - {id}))
      && (deleteFault(id).None? && id !in store ==> removed.1 == store)
  {
    var dto := LegacyCreateRequest(req, tokens).value;
    var id := insert(dto).value.0;
    var after := LegacyCreate(req, tokens, store, insert, readFault).1;
    assert id in after;
    if deleteFault(id).None? {
      DeleteStoredId(id, after, deleteFault);
    }
    if id !in store {
      assert after - {id} == store;
    }
  }

  /** Deleting a stored id by its decimal text removes exactly that row. */
  lemma DeleteStoredId(id: int, store: map<int, Reminder>, deleteFault: int -> Option<string>)
    requires IsInt64(id) && id in store && deleteFault(id).None?
    ensures DeleteAsWritten(["rm", FormatInt(id)], store, deleteFault) == (Sent(TextReply("Reminder successfully deleted")), store - {id})
  {
    FormatParse(id);
  }

  // dispatch

  /** The first handler's switch: the newer routes without the time-zone command. */
  function RouteOfLegacy(command: string, tokens: seq<string>): (r: Route)
    ensures r != TimeZoneRoute
    ensures r != UsageRoute ==> |tokens| > 0 && EqualFold(command, "/reminder")
    ensures |tokens| > 0 && EqualFold(command, "/reminder") ==>
      && (r == CreateRoute <==> tokens[0] in {"add", "create"})
      && (r == ListRoute <==> tokens[0] in {"list", "ls"})
      && (r == DeleteRoute <==> tokens[0] in {"delete", "del", "remove", "rm"})
  {
    var r := RouteOf(command, tokens);
    if r == TimeZoneRoute then UsageRoute else r
  }

  /** What the first handler consults: storage with its INSERT and read-back, and the listing of all reminders. */
  datatype LegacyBackend = LegacyBackend(
    insert: ReminderDto -> Result<(int, Instant), string>,
    readFault: int -> Option<string>,
    listed: Result<seq<Reminder>, string>,
    store: map<int, Reminder>,
    deleteFault: int -> Option<string>)

  /**
    MattermostReminder of the first version: bind the form, find the
    application, tokenize, answer the route. The delete route is the code as
    written, so a delete without an id crashes the handler.
  */
  method LegacyMattermostReminder(bound: Result<LegacyRequest, string>, appErr: Option<string>, b: LegacyBackend)
    returns (response: Response, store: map<int, Reminder>)
    ensures bound.Err? ==> response == Sent(ErrorReply(bound.error)) && store == b.store
    ensures bound.Ok? && appErr.Some? ==> response == Sent(TextReply(appErr.value)) && store == b.store
    ensures bound.Ok? && appErr.None? ==>
      var req := bound.value;
      var tokens := Tokens(req.text);
      var route := RouteOfLegacy(req.command, tokens);
      && (route == UsageRoute ==> response == Sent(UsageReply) && store == b.store)
      && (route == CreateRoute ==>
            var made := LegacyCreate(req, tokens, b.store, b.insert, b.readFault);
            response == Sent(made.0) && store == made.1)
      && (route == ListRoute ==>
            && response == Sent(TextReply(if b.listed.Err? then b.listed.error else LegacyHeader + Concat(LegacyRows(b.listed.value))))
            && store == b.store)
      && (route == DeleteRoute ==> (response, store) == DeleteAsWritten(tokens, b.store, b.deleteFault))
  {
    store := b.store;
    if bound.Err? {
      return Sent(ErrorReply(bound.error)), store;
    }
    var req := bound.value;
    if appErr.Some? {
      return Sent(TextReply(appErr.value)), store;
    }
    var tokens := Tokenize(req.text);
    var route := RouteOfLegacy(req.command, tokens);
    match route {
      case CreateRoute =>
        var made := LegacyCreate(req, tokens, b.store, b.insert, b.readFault);
        response, store := Sent(made.0), made.1;
      case ListRoute =>
        var text := LegacyList(b.listed);
        response := Sent(TextReply(text));
      case DeleteRoute =>
        response, store := DeleteAsWritten(tokens, b.store, b.deleteFault).0, DeleteAsWritten(tokens, b.store, b.deleteFault).1;
      case TimeZoneRoute =>
        response := Sent(UsageReply);
      case UsageRoute =>
        response := Sent(UsageReply);
    }
  }
}
