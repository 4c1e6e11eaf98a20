/**
  The slash-command handler of reminder/controllers: the token check on the
  Authorization header, the routing of the first token, and the replies each
  route sends. The request binding, the application lookup and storage are
  parameters.
*/
module Controllers {
  import opened Wrappers
  import opened Text
  import opened StrConv
  import opened Models
  import opened Tokenizer
  import opened Services

  /** A JSON reply: {"text": …} or the usage text with status 200, {"error": …} with status 400. */
  datatype Reply = TextReply(text: string) | UsageReply | ErrorReply(error: string)

  function Status(r: Reply): (code: int)
    ensures code == 200 || code == 400
    ensures code == 400 <==> r.ErrorReply?
  {
    if r.ErrorReply? then 400 else 200
  }

  /** authorize: the header split at " " has exactly two parts and the second equals the configured token, ignoring case. */
  predicate Authorize(header: string, secret: string)
  {
    var parts := Split(header, ' ');
    |parts| == 2 && EqualFold(parts[1], secret)
  }

  /** The authorized shape of a header: exactly one space, and the token after it equals the secret ignoring case. */
  predicate OneSpaceToken(header: string, secret: string, k: int)
  {
    0 <= k < |header| && header[k] == ' ' && ' ' !in header[..k] && ' ' !in header[k + 1..]
    && EqualFold(header[k + 1..], secret)
  }

  /** An authorized header has the shape, at its first space. */
  lemma AuthorizeHasShape(header: string, secret: string)
    requires Authorize(header, secret)
    ensures OneSpaceToken(header, secret, IndexOf(header, ' '))
  {
    var k := IndexOf(header, ' ');
    if k >= 0 {
      var head, rest := header[..k], header[k + 1..];
      assert Split(header, ' ') == [head] + Split(rest, ' ');
      SplitOne(rest, ' ');
    }
  }

  /** A header of that shape is authorized. */
  lemma ShapeIsAuthorized(header: string, secret: string, j: int)
    requires OneSpaceToken(header, secret, j)
    ensures Authorize(header, secret)
  {
    IndexOfFirst(header, ' ', j);
    var head, rest := header[..j], header[j + 1..];
    assert Split(header, ' ') == [head] + Split(rest, ' ');
    SplitOne(rest, ' ');
  }

  /**
    The header is authorized exactly when it holds one space and what follows
    that space equals the configured token, ignoring case.
  */
  lemma AuthorizeShape(header: string, secret: string)
    ensures Authorize(header, secret) <==> exists k :: OneSpaceToken(header, secret, k)
  {
    if Authorize(header, secret) {
      AuthorizeHasShape(header, secret);
    }
    if exists k :: OneSpaceToken(header, secret, k) {
      var j :| OneSpaceToken(header, secret, j);
      ShapeIsAuthorized(header, secret, j);
    }
  }

  /** The routes of the handler's switch; Usage covers every request that matches none. */
  datatype Route = CreateRoute | ListRoute | DeleteRoute | TimeZoneRoute | UsageRoute

  /** The switch of MattermostReminder: only a "/reminder" command (ignoring case) with at least one token is routed, by its first token. */
  function RouteOf(command: string, tokens: seq<string>): (r: Route)
    ensures r != UsageRoute ==> |tokens| > 0 && EqualFold(command, "/reminder")
    ensures |tokens| > 0 && EqualFold(command, "/reminder") ==>
      && (r == CreateRoute <==> tokens[0] in {"add", "create"})
      && (r == ListRoute <==> tokens[0] in {"list", "ls"})
      && (r == DeleteRoute <==> tokens[0] in {"delete", "del", "remove", "rm"})
      && (r == TimeZoneRoute <==> tokens[0] in {"timezone", "tz"})
  {
    if |tokens| > 0 && EqualFold(command, "/reminder") then
      match tokens[0]
      case "add" => CreateRoute
      case "create" => CreateRoute
      case "list" => ListRoute
      case "ls" => ListRoute
      case "delete" => DeleteRoute
      case "del" => DeleteRoute
      case "remove" => DeleteRoute
      case "rm" => DeleteRoute
      case "timezone" => TimeZoneRoute
      case "tz" => TimeZoneRoute
      case _ => UsageRoute
    else UsageRoute
  }

  /** The error replies' capitalisation: the first character upper-cased, the rest kept. */
  function Capitalize(txt: ErrorText): (r: string)
    ensures |r| == |txt| && r[0] == ToUpper(txt[0]) && r[1..] == txt[1..]
  {
    [ToUpper(txt[0])] + txt[1..]
  }

  /** mmReminderCreate's reply to what the create service returned. */
  function CreateReply(err: Option<ErrorText>): (rep: Reply)
    ensures rep.TextReply?
    ensures err.None? ==> rep.text == "Reminder successfully created"
    ensures err.Some? ==> rep.text == Capitalize(err.value)
  {
    match err
    case None => TextReply("Reminder successfully created")
    case Some(e) => TextReply(Capitalize(e))
  }

  /** mmReminderList's reply: the listing, or its error after "Error: ". */
  function ListReply(r: Result<string, string>): (rep: Reply)
    ensures rep.TextReply?
    ensures r.Ok? ==> rep.text == r.value
    ensures r.Err? ==> rep.text == "Error: " + r.error
  {
    match r
    case Ok(s) => TextReply(s)
    case Err(e) => TextReply("Error: " + e)
  }

  /** mmReminderDelete's reply: the report, or the capitalised error. */
  function DeleteReply(r: Result<string, ErrorText>): (rep: Reply)
    ensures rep.TextReply?
    ensures r.Ok? ==> rep.text == r.value
    ensures r.Err? ==> rep.text == Capitalize(r.error)
  {
    match r
    case Ok(s) => TextReply(s)
    case Err(e) => TextReply(Capitalize(e))
  }

  /** The collaborators behind a request: storage, the clock-free time-zone library and the configured default location. */
  datatype Backend = Backend(
    creation: Creation,
    listed: string -> Result<seq<Reminder>, string>,
    store: map<int, Reminder>,
    deleteFault: int -> Option<string>,
    channelOf: string -> Result<Channel, string>,
    defaultLocation: string,
    loadError: string -> Option<string>,
    insertChannel: Channel -> Option<string>)

  /** mmReminderTimeZone: at most one token shows the channel's zone; more tokens set it to the second. */
  function TimeZoneReply(req: MmRequest, tokens: seq<string>, b: Backend): (rep: Reply)
    ensures rep.TextReply?
    ensures |tokens| <= 1 ==> rep.text == ReminderTimeZoneGet(req, b.channelOf(req.channelName), b.defaultLocation)
    ensures |tokens| > 1 ==>
      var outcome := ReminderTimeZoneSet(req, tokens, b.loadError, b.insertChannel);
      rep.text == if outcome.Ok? then "Time zone set to " + tokens[1] else "Error: " + outcome.error
  {
    if |tokens| <= 1 then TextReply(ReminderTimeZoneGet(req, b.channelOf(req.channelName), b.defaultLocation))
    else
      match ReminderTimeZoneSet(req, tokens, b.loadError, b.insertChannel)
      case Ok(zone) => TextReply("Time zone set to " + zone)
      case Err(e) => TextReply("Error: " + e)
  }

  /**
    MattermostReminder: check the header, bind the form, find the application,
    tokenize the text and answer the route. The result is the reply and the
    reminders left in storage.
  */
  method MattermostReminder(header: string, secret: string, bound: Result<MmRequest, string>, appErr: Option<string>, b: Backend)
    returns (reply: Reply, store: map<int, Reminder>)
    ensures !Authorize(header, secret) ==> reply == ErrorReply("Authorization error: invalid token") && store == b.store
    ensures Authorize(header, secret) && bound.Err? ==> reply == ErrorReply(bound.error) && store == b.store
    ensures Authorize(header, secret) && bound.Ok? && appErr.Some? ==> reply == TextReply(appErr.value) && store == b.store
    ensures Authorize(header, secret) && bound.Ok? && appErr.None? ==>
      var req := bound.value;
      var tokens := Tokens(req.text);
      var route := RouteOf(req.command, tokens);
      && (route == UsageRoute ==> reply == UsageReply)
      && (route == CreateRoute ==>
            var made := ReminderCreate(req, tokens, b.store, b.creation);
            reply == CreateReply(made.0) && store == made.1)
      && (route == ListRoute ==> reply == ListReply(ListText(b.listed(req.channelName))))
      && (route == TimeZoneRoute ==> reply == TimeZoneReply(req, tokens, b))
      && (route == DeleteRoute && |tokens| < 2 ==> reply == TextReply(Capitalize(WrongArgCount)) && store == b.store)
      && (route == DeleteRoute && |tokens| >= 2 ==>
            var c := Collect(b.store, b.deleteFault, req.channelName, tokens[1..]);
            reply == TextReply(Message(c.deleted, c.undels)) && store == c.store)
      && (route != DeleteRoute && route != CreateRoute ==> store == b.store)
  {
    store := b.store;
    if !Authorize(header, secret) {
      return ErrorReply("Authorization error: invalid token"), store;
    }
    if bound.Err? {
      return ErrorReply(bound.error), store;
    }
    var req := bound.value;
    if appErr.Some? {
      return TextReply(appErr.value), store;
    }
    var tokens := Tokenize(req.text);
    var route := RouteOf(req.command, tokens);
    match route {
      case CreateRoute =>
        var made := ReminderCreate(req, tokens, b.store, b.creation);
        reply, store := CreateReply(made.0), made.1;
      case ListRoute =>
        var listing := ReminderList(b.listed(req.channelName));
        reply := ListReply(listing);
      case DeleteRoute =>
        var report;
        report, store := ReminderDelete(b.store, b.deleteFault, req, tokens);
        reply := DeleteReply(report);
      case TimeZoneRoute =>
        reply := TimeZoneReply(req, tokens, b);
      case UsageRoute =>
        reply := UsageReply;
    }
  }
}
