/** The SearchServer handler of hw4_test_coverage: it checks the access token,
    selects the users of the dataset whose names or description contain the
    query, optionally reorders them, and returns one page of them.

    The HTTP request is its header and query maps; the reply is what the
    handler writes. The dataset is the already parsed `dataset.xml`, or None
    when the file cannot be opened or parsed. The reordering by `sort.Slice`
    is a parameter, and so is the `OrderByAsIs` constant, whose definition is
    not part of this model. */
module Search {
  import opened Strings

  const AccessToken: string := "sasdf123"
  const StatusUnauthorized: int := 401
  const StatusBadRequest: int := 400

  /** The fields of a dataset row the handler reads. */
  datatype Row = Row(id: int, age: int, firstName: string, lastName: string, about: string, gender: string)

  datatype User = User(id: int, name: string, age: int, about: string, gender: string)

  datatype Request = Request(header: map<string, string>, query: map<string, string>)

  /** What the handler does: a JSON list of users, an error sent with
      `sendError`, nothing at all (a bare return), or a panic. */
  datatype Reply = Users(users: seq<User>) | Failed(status: int, error: string) | NoBody | Panicked

  /** `Header.Get` and `Query().Get`: the value under `key`, or "" when there is none. */
  function Get(m: map<string, string>, key: string): string
  {
    if key in m then m[key] else ""
  }

  /** The user a row is listed as: first and last name joined by a space, the other fields copied. */
  function ToUser(row: Row): (u: User)
    ensures u.name == row.firstName + " " + row.lastName
    ensures u.id == row.id && u.age == row.age && u.about == row.about && u.gender == row.gender
  {
    User(row.id, row.firstName + " " + row.lastName, row.age, row.about, row.gender)
  }

  /** The query occurs in the first name, the last name or the description. */
  predicate Matches(row: Row, query: string)
  {
    Contains(row.firstName, query) || Contains(row.lastName, query) || Contains(row.about, query)
  }

  /** The users of the rows the query selects, in dataset order. */
  function Selected(rows: seq<Row>, query: string): seq<User>
  {
    if |rows| == 0 then []
    else
      var row := rows[|rows| - 1];
      Selected(rows[..|rows| - 1], query) + (if Matches(row, query) then [ToUser(row)] else [])
  }

  /** Every string contains the empty query. */
  lemma EmptyQueryMatches(row: Row)
    ensures Matches(row, "")
  {
    assert HasPrefix(row.firstName, "");
  }

  /** The two loops filling `resp`: with a query, the matching rows; without
      one, every row. */
  method FilterRows(rows: seq<Row>, toFind: string) returns (resp: seq<User>)
    ensures resp == Selected(rows, toFind)
  {
    resp := [];
    if toFind != "" {
      for i := 0 to |rows|
        invariant resp == Selected(rows[..i], toFind)
      {
        assert rows[..i + 1][..i] == rows[..i];
        if Contains(rows[i].firstName, toFind) || Contains(rows[i].lastName, toFind) || Contains(rows[i].about, toFind) {
          resp := resp + [ToUser(rows[i])];
        }
      }
    } else {
      for i := 0 to |rows|
        invariant resp == Selected(rows[..i], toFind)
      {
        assert rows[..i + 1][..i] == rows[..i];
        EmptyQueryMatches(rows[i]);
        resp := resp + [ToUser(rows[i])];
      }
    }
    assert rows[..|rows|] == rows;
  }

  /** `order_field` values the handler can sort by. */
  predicate ValidOrderField(field: string)
  {
    field == "Id" || field == "Age" || field == "Name" || field == ""
  }

  function Min(a: int, b: int): int
  {
    if a < b then a else b
  }

  /** The page `limit`/`offset` select, None where slicing would panic: with a
      positive limit, nothing past the end, otherwise the users from `offset`
      up to `offset + limit` or the end; with no positive limit, all of them. */
  function Page<T>(resp: seq<T>, limit: int, offset: int): (r: Option<seq<T>>)
    ensures r.None? <==> limit > 0 && offset < 0
    ensures limit <= 0 ==> r == Some(resp)
    ensures r.Some? && limit > 0 ==> |r.value| <= limit
    ensures r.Some? && limit > 0 ==> var lo := Min(offset, |resp|);
      lo + |r.value| <= |resp| && r.value == resp[lo..lo + |r.value|]
    ensures r.Some? && limit > 0 ==> |r.value| == Min(limit, |resp| - Min(offset, |resp|))
  {
    if limit <= 0 then Some(resp)
    else if offset > |resp| - 1 then Some([])
    else if offset < 0 then None
    else Some(resp[offset..Min(offset + limit, |resp|)])
  }

  /** Go's 64-bit signed addition, which wraps around. */
  function Wrap64(x: int): (r: int)
    ensures MinInt64 <= r <= MaxInt64
    ensures (r - x) % 0x1_0000_0000_0000_0000 == 0
  {
    (x - MinInt64) % 0x1_0000_0000_0000_0000 + MinInt64
  }

  /** The pagination as the handler writes it, where `offset + limit` is a
      64-bit sum: a sum that wraps makes the slice end fall before its start. */
  function PageAsWritten<T>(resp: seq<T>, limit: int, offset: int): (r: Option<seq<T>>)
    ensures r.None? <==> limit > 0 && offset <= |resp| - 1 && (offset < 0 || Wrap64(offset + limit) < offset)
    ensures r.Some? && MinInt64 <= limit <= MaxInt64 && MinInt64 <= offset <= MaxInt64 ==> r == Page(resp, limit, offset)
  {
    if limit <= 0 then Some(resp)
    else if offset > |resp| - 1 then Some([])
    else
      var to := Wrap64(offset + limit);
      var to := if to > |resp| then |resp| else to;
      if 0 <= offset <= to then Some(resp[offset..to]) else None
  }

  /** The handler's reply. */
  function Serve(req: Request, dataset: Option<seq<Row>>, asIs: int,
                 reorder: (seq<User>, string, int) -> seq<User>): Reply
  {
    if Get(req.header, "AccessToken") != AccessToken then Failed(StatusUnauthorized, "Invalid access token")
    else if dataset.None? then NoBody
    else
      var resp := Selected(dataset.value, Get(req.query, "query"));
      var sortBy := Get(req.query, "order_field");
      match Atoi(Get(req.query, "order_by"))
      case None => NoBody
      case Some(orderBy) =>
        if orderBy != asIs && !ValidOrderField(sortBy) then Failed(StatusBadRequest, "ErrorBadOrderField")
        else
          var arranged := if orderBy != asIs then reorder(resp, sortBy, orderBy) else resp;
          match (Atoi(Get(req.query, "limit")), Atoi(Get(req.query, "offset")))
          case (Some(limit), Some(offset)) =>
            (match Page(arranged, limit, offset)
             case Some(page) => Users(page)
             case None => Panicked)
          case _ => NoBody
  }

  /** SearchServer. */
  method SearchServer(req: Request, dataset: Option<seq<Row>>, asIs: int,
                      reorder: (seq<User>, string, int) -> seq<User>) returns (reply: Reply)
    ensures reply == Serve(req, dataset, asIs, reorder)
  {
    if Get(req.header, "AccessToken") != AccessToken {
      return Failed(StatusUnauthorized, "Invalid access token");
    }
    if dataset.None? {
      return NoBody;
    }
    var q := req.query;
    var toFind := Get(q, "query");
    var resp := FilterRows(dataset.value, toFind);

    var sortBy := Get(q, "order_field");
    var parsedOrder := Atoi(Get(q, "order_by"));
    if parsedOrder.None? {
      return NoBody;
    }
    var orderBy := parsedOrder.value;
    if orderBy != asIs {
      if !(sortBy == "Id" || sortBy == "Age" || sortBy == "Name" || sortBy == "") {
        return Failed(StatusBadRequest, "ErrorBadOrderField");
      }
      resp := reorder(resp, sortBy, orderBy);
    }

    var parsedLimit := Atoi(Get(q, "limit"));
    if parsedLimit.None? {
      return NoBody;
    }
    var limit := parsedLimit.value;
    var parsedOffset := Atoi(Get(q, "offset"));
    if parsedOffset.None? {
      return NoBody;
    }
    var offset := parsedOffset.value;

    if limit > 0 {
      var from := offset;
      if from > |resp| - 1 {
        resp := [];
      } else {
        var to := offset + limit;
        if to > |resp| {
          to := |resp|;
        }
        if from < 0 {
          return Panicked;
        }
        resp := resp[from..to];
      }
    }
    return Users(resp);
  }
}
