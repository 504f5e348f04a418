/** The mail client: it keeps a bearer token in the store, reuses it while it
    is valid, and otherwise retires it and asks the identity provider for a
    new one; with a token it looks up the target mail folder, walks the
    folder's message pages and returns the inbox filtered and newest first.
    The HTTP service and the identity provider are parameters: `Remote`
    answers a GET for a token and a URL, and a `Grant` is the outcome of the
    client-credentials request. */
module GraphClient {
  import opened Common
  import opened TokenStore
  import opened Mailbox

  // ----- Responses of the mail service -----

  /** A decoded JSON body, reduced to the keys the client reads. `EmptyObject`
      is `{}`, the one body Python treats as false; `Object` is any other
      object, whose `id`, `value` and `@odata.nextLink` may be missing. */
  datatype Json =
    | EmptyObject
    | Object(id: Option<string>, value: Option<seq<Email>>, nextLink: Option<string>)

  datatype Response = Response(status: int, body: Json)

  /** The mail service: the answer to a GET with a bearer token on a URL. */
  type Remote = (string, string) -> Response

  /** What `_make_request` returns, and whether it sent a request at all. */
  datatype Reply = Reply(data: Option<Json>, sent: bool)

  /** `_make_request`: no request without a token; the decoded body only for
      status 200. */
  function Request(token: Option<string>, remote: Remote, url: string): (r: Reply)
    ensures r.sent <==> Truthy(token)
    ensures r.data.Some? <==> Truthy(token) && remote(token.value, url).status == 200
    ensures r.data.Some? ==> r.data.value == remote(token.value, url).body
  {
    if !Truthy(token) then Reply(None, false)
    else
      var response := remote(token.value, url);
      if response.status == 200 then Reply(Some(response.body), true) else Reply(None, true)
  }

  /** `get_folder_id`: the folder's `id` when the request succeeds with a
      non-empty body; `KeyError` when such a body has no `id`. */
  function FolderId(token: Option<string>, remote: Remote, url: string): (r: Outcome<Option<string>>)
    ensures !Truthy(token) ==> r == Done(None)
    ensures r.Raised? <==>
      Truthy(token) && remote(token.value, url).status == 200
      && remote(token.value, url).body.Object? && remote(token.value, url).body.id.None?
    ensures r.Raised? ==> r.error == MissingKey("id")
    ensures r.Done? && r.value.Some? ==>
      Truthy(token) && remote(token.value, url).status == 200
      && remote(token.value, url).body.Object? && remote(token.value, url).body.id == r.value
    ensures (Truthy(token) && remote(token.value, url).status == 200
      && remote(token.value, url).body.Object? && remote(token.value, url).body.id.Some?) ==>
      r == Done(remote(token.value, url).body.id)
  {
    var data := Request(token, remote, url).data;
    if data.None? || data.value.EmptyObject? then Done(None)
    else if data.value.id.None? then Raised(MissingKey("id"))
    else Done(data.value.id)
  }

  // ----- Pagination -----

  const MaxIterations: nat := 100

  /** The message listing of a folder: pages of at most 100 messages, with
      the fields the client reads. */
  const MessagesQuery: string := "/messages?$top=100&$select=from,subject,receivedDateTime,bodyPreview,body"

  /** `data.get('value', [])`. */
  function Items(body: Json): seq<Email>
  {
    if body.Object? && body.value.Some? then body.value.value else []
  }

  /** What the page loop collects and how many times it calls `_make_request`. */
  datatype Fetched = Fetched(emails: seq<Email>, calls: nat)

  /** The page loop from `url` with `budget` iterations left: it stops on a
      missing or empty link, an exhausted budget, a failed or empty response
      or a page without messages, and otherwise appends the page's messages
      and follows `@odata.nextLink`. */
  function Paginate(token: Option<string>, remote: Remote, url: Option<string>, budget: nat): (r: Fetched)
    ensures r.calls <= budget
    ensures r.calls == 0 <==> !Truthy(url) || budget == 0
    ensures !Truthy(token) ==> r.emails == []
    decreases budget
  {
    if !Truthy(url) || budget == 0 then Fetched([], 0)
    else
      var data := Request(token, remote, url.value).data;
      if data.None? || data.value.EmptyObject? || Items(data.value) == [] then Fetched([], 1)
      else
        var rest := Paginate(token, remote, data.value.nextLink, budget - 1);
        Fetched(Items(data.value) + rest.emails, rest.calls + 1)
  }

  /** A larger budget only adds pages after the ones already collected, and
      a walk that stopped before its budget ran out is the whole walk: the
      messages collected before a failed page are kept. */
  lemma {:induction false} PaginateKeepsEarlierPages(token: Option<string>, remote: Remote, url: Option<string>, k: nat, budget: nat)
    requires k <= budget
    ensures Paginate(token, remote, url, k).emails <= Paginate(token, remote, url, budget).emails
    ensures Paginate(token, remote, url, k).calls < k ==>
      Paginate(token, remote, url, k) == Paginate(token, remote, url, budget)
    decreases k
  {
    if k > 0 && Truthy(url) {
      var data := Request(token, remote, url.value).data;
      if !(data.None? || data.value.EmptyObject? || Items(data.value) == []) {
        PaginateKeepsEarlierPages(token, remote, data.value.nextLink, k - 1, budget - 1);
      }
    }
  }

  /** `n` copies of a page. */
  function Repeat(batch: seq<Email>, n: nat): (r: seq<Email>)
    ensures |r| == n * |batch|
  {
    if n == 0 then [] else batch + Repeat(batch, n - 1)
  }

  /** A page that links to itself is fetched until the budget runs out: the
      iteration cap is what ends the loop. */
  lemma {:induction false} SelfLinkedPageHitsCap(token: Option<string>, remote: Remote, url: Option<string>, batch: seq<Email>, n: nat)
    requires Truthy(token) && Truthy(url) && batch != []
    requires remote(token.value, url.value) == Response(200, Object(None, Some(batch), url))
    ensures Paginate(token, remote, url, n) == Fetched(Repeat(batch, n), n)
  {
    if n > 0 {
      SelfLinkedPageHitsCap(token, remote, url, batch, n - 1);
    }
  }

  /** Filtering the collected messages is filtering each page in turn:
      a page with messages contributes its kept messages, in order, ahead of
      those of the pages after it. */
  lemma FilterPageByPage(token: Option<string>, remote: Remote, url: Option<string>, budget: nat)
    requires Truthy(token) && Truthy(url) && budget > 0
    requires remote(token.value, url.value).status == 200
    requires Items(remote(token.value, url.value).body) != []
    ensures var body := remote(token.value, url.value).body;
      Filtered(Paginate(token, remote, url, budget).emails)
      == Filtered(Items(body)) + Filtered(Paginate(token, remote, body.nextLink, budget - 1).emails)
  {
    var body := remote(token.value, url.value).body;
    FilteredAppend(Items(body), Paginate(token, remote, body.nextLink, budget - 1).emails);
  }

  // ----- The token decision -----

  /** What `validar_existencia_token` does with the row `get_token` found:
      reuse its token, or refresh, after retiring the row with the given id. */
  datatype Decision = Reuse(token: string) | Refresh(retire: Option<nat>)

  function Decide(result: Option<TokenRow>, now: int): (r: Decision)
    ensures r.Reuse? <==> result.Some? && result.value.expiry.Some? && now < result.value.expiry.value
    ensures r.Reuse? ==> r.token == result.value.token
    ensures r.Refresh? && r.retire.Some? <==>
      result.Some? && result.value.expiry.Some? && now >= result.value.expiry.value && result.value.id != 0
    ensures r.Refresh? && r.retire.Some? ==> r.retire.value == result.value.id
  {
    if result.None? || result.value.expiry.None? then Refresh(None)
    else if now < result.value.expiry.value then Reuse(result.value.token)
    else if result.value.id != 0 then Refresh(Some(result.value.id))
    else Refresh(None)
  }

  /** The outcome of the client-credentials request when it answers 200. */
  datatype Grant = Grant(accessToken: string, expiresIn: int)

  /** A token operation's returned token (or exception) and the store after it. */
  datatype TokenStep = TokenStep(token: Outcome<Option<string>>, db: Db)

  /** `_crear_nuevo_token`: on a grant, store it with its expiry and return
      it; without one, return `None` and touch nothing. */
  function CreateTokenStep(db: Db, now: int, grant: Option<Grant>): TokenStep
  {
    if grant.None? then TokenStep(Done(None), db)
    else
      var s := InsertStep(db, grant.value.accessToken, now + grant.value.expiresIn);
      if s.result.Raised? then TokenStep(Raised(s.result.error), s.db)
      else TokenStep(Done(Some(grant.value.accessToken)), s.db)
  }

  /** `validar_existencia_token`: the answer of `desactivar_token` is not
      looked at, but its exception escapes. */
  function ValidateTokenStep(db: Db, result: Option<TokenRow>, now: int, grant: Option<Grant>): TokenStep
  {
    match Decide(result, now)
    case Reuse(token) => TokenStep(Done(Some(token)), db)
    case Refresh(None) => CreateTokenStep(db, now, grant)
    case Refresh(Some(id)) =>
      var s := DeactivateStep(db, id);
      if s.result.Raised? then TokenStep(Raised(s.result.error), s.db)
      else CreateTokenStep(s.db, now, grant)
  }

  /** The row stored for a granted token: the next identity value, expiry
      `now + expires_in`, active. */
  function GrantedRow(db: Db, now: int, g: Grant): TokenRow
  {
    NewRow(db, g.accessToken, now + g.expiresIn)
  }

  /** A refused grant changes nothing; an accepted one whose insert succeeds
      adds exactly one active row, with expiry `now + expires_in`, which is
      the row `get_token` selects from then on. */
  lemma CreateTokenSpec(db: Db, now: int, grant: Option<Grant>)
    requires ValidDb(db)
    ensures grant.None? ==> CreateTokenStep(db, now, grant) == TokenStep(Done(None), db)
    ensures grant.Some? && Succeeds(db.faults) ==>
      CreateTokenStep(db, now, grant).token == Done(Some(grant.value.accessToken))
    ensures grant.Some? && Succeeds(db.faults) ==>
      CreateTokenStep(db, now, grant).db.rows == db.rows + [GrantedRow(db, now, grant.value)]
    ensures grant.Some? && Succeeds(db.faults) ==>
      LatestActive(CreateTokenStep(db, now, grant).db.rows) == Some(GrantedRow(db, now, grant.value))
    ensures ValidDb(CreateTokenStep(db, now, grant).db)
    ensures grant.Some? && !Succeeds(db.faults) ==>
      CreateTokenStep(db, now, grant).token.Raised? && CreateTokenStep(db, now, grant).db.rows == db.rows
  {
    if grant.Some? {
      var g := grant.value;
      var row := GrantedRow(db, now, g);
      var s := InsertStep(db, g.accessToken, now + g.expiresIn);
      assert CreateTokenStep(db, now, grant).db == s.db;
      if Succeeds(db.faults) {
        assert s.db.rows == db.rows + [row] && s.db.nextId == db.nextId + 1;
        AppendedIsLatest(db.rows, row);
        AppendKeepsValid(db.rows, db.nextId, row);
      }
    }
  }

  /** A valid stored token is returned as it is: no store operation and no
      grant request. */
  lemma ReuseTouchesNothing(db: Db, row: TokenRow, now: int, grant: Option<Grant>)
    requires row.expiry.Some? && now < row.expiry.value
    ensures ValidateTokenStep(db, Some(row), now, grant) == TokenStep(Done(Some(row.token)), db)
  {
  }

  /** Without a stored row, or with a row without expiry, the client asks
      for a new token straight away, retiring nothing. */
  lemma MissingRowRefreshes(db: Db, result: Option<TokenRow>, now: int, grant: Option<Grant>)
    requires result.None? || result.value.expiry.None?
    ensures ValidateTokenStep(db, result, now, grant) == CreateTokenStep(db, now, grant)
  {
  }

  /** An expired row with an id is retired, then one new token is requested
      and stored: when both store operations succeed, the table is the old
      one with that row retired and the new row appended, and `get_token`
      serves the new token and never the expired one again. */
  lemma ExpiredRowIsReplaced(db: Db, row: TokenRow, now: int, g: Grant)
    requires ValidDb(db)
    requires row.expiry.Some? && now >= row.expiry.value && row.id != 0
    requires Succeeds(db.faults) && Succeeds(DeactivateStep(db, row.id).db.faults)
    ensures ValidateTokenStep(db, Some(row), now, Some(g)).token == Done(Some(g.accessToken))
    ensures ValidateTokenStep(db, Some(row), now, Some(g)).db.rows
      == Deactivate(db.rows, row.id) + [GrantedRow(db, now, g)]
    ensures LatestActive(ValidateTokenStep(db, Some(row), now, Some(g)).db.rows) == Some(GrantedRow(db, now, g))
    ensures ValidDb(ValidateTokenStep(db, Some(row), now, Some(g)).db)
  {
    var d := DeactivateStep(db, row.id).db;
    assert d.rows == Deactivate(db.rows, row.id) && d.nextId == db.nextId;
    DeactivateKeepsValid(db.rows, db.nextId, row.id);
    assert ValidateTokenStep(db, Some(row), now, Some(g)) == CreateTokenStep(d, now, Some(g));
    assert GrantedRow(d, now, g) == GrantedRow(db, now, g);
    CreateTokenSpec(d, now, Some(g));
  }

  /** An expired row with an id is retired before any grant is requested:
      if retiring it fails, no token is requested and the exception escapes. */
  lemma FailedRetireStopsRefresh(db: Db, row: TokenRow, now: int, grant: Option<Grant>)
    requires row.expiry.Some? && now >= row.expiry.value && row.id != 0
    requires !Succeeds(db.faults)
    ensures ValidateTokenStep(db, Some(row), now, grant) == TokenStep(Raised(Exhausted()), AfterRetries(db, true))
  {
  }

  // ----- The whole request -----

  /** What `obtener_correos` returns, the token it leaves in `self.token` and
      the store after it. */
  datatype Obtained = Obtained(result: Outcome<seq<Email>>, token: Option<string>, db: Db)

  /** The mail client, with the service's base URL, the mailbox and the
      target folder it was configured with. */
  class Graph {
    const querys: Querys
    const graphUrl: string
    const user: string
    const targetFolder: string
    var token: Option<string>

    constructor (querys: Querys, graphUrl: string, user: string, targetFolder: string)
      ensures this.querys == querys && this.graphUrl == graphUrl && this.user == user
      ensures this.targetFolder == targetFolder && token == None
    {
      this.querys, this.graphUrl, this.user, this.targetFolder := querys, graphUrl, user, targetFolder;
      token := None;
    }

    ghost predicate Valid()
      reads this, querys
    {
      querys.Valid()
    }

    function FolderUrl(folder: string): string
    {
      graphUrl + user + "/mailFolders/" + folder
    }

    /** The first message page of a folder. */
    function MessagesUrl(folder: string): (u: string)
      ensures FolderUrl(folder) <= u && u != []
    {
      FolderUrl(folder) + MessagesQuery
    }

    /** The first page of a folder, or none for a missing folder id. */
    function FirstPage(folderId: Option<string>): (r: Option<string>)
      ensures Truthy(r) <==> Truthy(folderId)
    {
      if Truthy(folderId) then Some(MessagesUrl(folderId.value)) else None
    }

    /** `extraer_correos`: the messages of the folder's pages, in order, from
        at most 100 calls of `_make_request`; nothing for a missing folder id. */
    method ExtractEmails(folderId: Option<string>, remote: Remote) returns (emails: seq<Email>, ghost calls: nat)
      ensures emails == Walk(token, folderId, remote)
      ensures !Truthy(folderId) ==> emails == []
      ensures calls == Paginate(token, remote, FirstPage(folderId), MaxIterations).calls
      ensures calls <= MaxIterations
    {
      ghost var start := FirstPage(folderId);
      emails, calls := [], 0;
      var iteration: nat := 0;
      if Truthy(folderId) {
        var url: Option<string> := Some(MessagesUrl(folderId.value));
        while Truthy(url) && iteration < MaxIterations
          invariant iteration <= MaxIterations && calls == iteration
          invariant var rest := Paginate(token, remote, url, MaxIterations - iteration);
            var walk := Paginate(token, remote, start, MaxIterations);
            emails + rest.emails == walk.emails && calls + rest.calls == walk.calls
          decreases MaxIterations - iteration
        {
          ghost var rest := Paginate(token, remote, url, MaxIterations - iteration);
          var data := Request(token, remote, url.value).data;
          calls := calls + 1;
          if data.None? || data.value.EmptyObject? {
            assert rest == Fetched([], 1);
            assert emails + [] == emails;
            break;
          }
          var newEmails := Items(data.value);
          if newEmails == [] {
            assert rest == Fetched([], 1);
            assert emails + [] == emails;
            break;
          }
          ghost var next := Paginate(token, remote, data.value.nextLink, MaxIterations - iteration - 1);
          assert rest.emails == newEmails + next.emails;
          assert emails + (newEmails + next.emails) == (emails + newEmails) + next.emails;
          emails := emails + newEmails;
          url := data.value.nextLink;
          iteration := iteration + 1;
        }
        assert emails + [] == emails;
      }
    }

    /** `obtener_correos` as a function of the state before it: the store's
        token, checked and possibly replaced; then, with a token, the target
        folder's messages filtered and newest first. `token0` is the token
        held before, which stays when an exception escapes first. */
    function ObtainSpec(db: Db, token0: Option<string>, now: int, grant: Option<Grant>, remote: Remote): Obtained
    {
      var g := GetTokenStep(db);
      if g.result.Raised? then Obtained(Raised(g.result.error), token0, g.db)
      else
        var v := ValidateTokenStep(g.db, g.result.value, now, grant);
        if v.token.Raised? then Obtained(Raised(v.token.error), token0, v.db)
        else
          Obtained(Serve(v.token.value, remote), v.token.value, v.db)
    }

    /** What `obtener_correos` returns once `self.token` is set: nothing
        without a token; otherwise the target folder's messages, filtered and
        newest first. */
    function Serve(t: Option<string>, remote: Remote): (r: Outcome<seq<Email>>)
      ensures !Truthy(t) ==> r == Done([])
      ensures r.Raised? ==> r.error == MissingKey("id")
    {
      if !Truthy(t) then Done([])
      else
        var f := FolderId(t, remote, FolderUrl(targetFolder));
        if f.Raised? then Raised(f.error)
        else Done(Inbox(Walk(t, f.value, remote)))
    }

    /** The messages of a folder's pages, as `extraer_correos` collects them. */
    function Walk(t: Option<string>, folderId: Option<string>, remote: Remote): seq<Email>
    {
      Paginate(t, remote, FirstPage(folderId), MaxIterations).emails
    }

    /** With a token, the client returns the messages of the target folder's
        pages that pass the filter, each as often as the pages hold it,
        newest first. */
    lemma ServedInbox(t: Option<string>, remote: Remote)
      ensures var folder := FolderId(t, remote, FolderUrl(targetFolder));
        Truthy(t) && Serve(t, remote).Done? ==>
          && folder.Done?
          && NewestFirst(Serve(t, remote).value)
          && multiset(Serve(t, remote).value) == multiset(Filtered(Walk(t, folder.value, remote)))
          && (forall e :: Keep(e) ==> multiset(Serve(t, remote).value)[e] == multiset(Walk(t, folder.value, remote))[e])
          && (forall e :: e in Serve(t, remote).value ==> Keep(e))
    {
      if Truthy(t) && Serve(t, remote).Done? {
        var folder := FolderId(t, remote, FolderUrl(targetFolder));
        InboxSpec(Walk(t, folder.value, remote));
      }
    }

    /** `_crear_nuevo_token`. */
    method CreateToken(now: int, grant: Option<Grant>) returns (r: Outcome<Option<string>>)
      requires Valid()
      modifies querys
      ensures Valid()
      ensures TokenStep(r, querys.State()) == CreateTokenStep(old(querys.State()), now, grant)
    {
      if grant.None? {
        return Done(None);
      }
      var inserted := querys.InsertToken(grant.value.accessToken, now + grant.value.expiresIn);
      if inserted.Raised? {
        return Raised(inserted.error);
      }
      r := Done(Some(grant.value.accessToken));
    }

    /** `validar_existencia_token`. */
    method ValidateToken(result: Option<TokenRow>, now: int, grant: Option<Grant>) returns (r: Outcome<Option<string>>)
      requires Valid()
      modifies querys
      ensures Valid()
      ensures TokenStep(r, querys.State()) == ValidateTokenStep(old(querys.State()), result, now, grant)
    {
      if result.Some? && result.value.expiry.Some? {
        if now < result.value.expiry.value {
          return Done(Some(result.value.token));
        }
        if result.value.id != 0 {
          var retired := querys.DeactivateToken(result.value.id);
          if retired.Raised? {
            return Raised(retired.error);
          }
        }
      }
      r := CreateToken(now, grant);
    }

    /** `obtener_correos`. */
    method ObtainEmails(now: int, grant: Option<Grant>, remote: Remote) returns (r: Outcome<seq<Email>>)
      requires Valid()
      modifies this, querys
      ensures Valid()
      ensures Obtained(r, token, querys.State()) == ObtainSpec(old(querys.State()), old(token), now, grant, remote)
    {
      var result := querys.GetToken();
      if result.Raised? {
        return Raised(result.error);
      }
      var validated := ValidateToken(result.value, now, grant);
      if validated.Raised? {
        return Raised(validated.error);
      }
      token := validated.value;
      var filtered: seq<Email> := [];
      if Truthy(token) {
        var folderId := FolderId(token, remote, FolderUrl(targetFolder));
        if folderId.Raised? {
          return Raised(folderId.error);
        }
        var emails, calls := ExtractEmails(folderId.value, remote);
        if emails != [] {
          filtered := SortNewestFirst(Filtered(emails));
        }
      }
      r := Done(filtered);
    }
  }
}
