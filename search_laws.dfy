/** What SearchServer promises: the token gate, the query filter (by substring,
    in dataset order, everything for an empty query), the order-field check,
    and that every user it lists is one the query selected, at most `limit`
    of them. Also the 64-bit overflow of `offset + limit` in the handler's
    pagination. */
module SearchLaws {
  import opened Strings
  import opened Search

  // ---------------------------------------------------------------------------
  // The query filter

  /** Selection works row by row: the users of a concatenation are the users
      of each part, in that order, so kept rows stay in dataset order. */
  lemma {:induction false} SelectedAppend(a: seq<Row>, b: seq<Row>, query: string)
    ensures Selected(a + b, query) == Selected(a, query) + Selected(b, query)
  {
    if |b| > 0 {
      assert (a + b)[..|a + b| - 1] == a + b[..|b| - 1];
      SelectedAppend(a, b[..|b| - 1], query);
    } else {
      assert a + b == a;
    }
  }

  /** A user is listed exactly when some row matching the query is listed as that user. */
  lemma {:induction false} SelectedMembers(rows: seq<Row>, query: string, u: User)
    ensures u in Selected(rows, query) <==>
      exists k :: 0 <= k < |rows| && Matches(rows[k], query) && ToUser(rows[k]) == u
  {
    if |rows| > 0 {
      var init := rows[..|rows| - 1];
      SelectedMembers(init, query, u);
      if exists k :: 0 <= k < |rows| && Matches(rows[k], query) && ToUser(rows[k]) == u {
        var k :| 0 <= k < |rows| && Matches(rows[k], query) && ToUser(rows[k]) == u;
        if k < |rows| - 1 {
          assert init[k] == rows[k];
        }
      }
      if u in Selected(init, query) {
        var k :| 0 <= k < |init| && Matches(init[k], query) && ToUser(init[k]) == u;
        assert rows[k] == init[k];
      }
    }
  }

  /** A row matches exactly when the query occurs as a contiguous piece of its
      first name, last name or description. */
  lemma MatchesIff(row: Row, query: string)
    ensures Matches(row, query) <==>
      (exists i: nat :: OccursAt(row.firstName, query, i)) ||
      (exists i: nat :: OccursAt(row.lastName, query, i)) ||
      (exists i: nat :: OccursAt(row.about, query, i))
  {
    ContainsIff(row.firstName, query);
    ContainsIff(row.lastName, query);
    ContainsIff(row.about, query);
  }

  /** With an empty query every row is listed, in dataset order. */
  lemma {:induction false} EmptyQueryKeepsAll(rows: seq<Row>)
    ensures |Selected(rows, "")| == |rows|
    ensures forall k :: 0 <= k < |rows| ==> Selected(rows, "")[k] == ToUser(rows[k])
  {
    if |rows| > 0 {
      EmptyQueryKeepsAll(rows[..|rows| - 1]);
      EmptyQueryMatches(rows[|rows| - 1]);
    }
  }

  // ---------------------------------------------------------------------------
  // The handler

  /** The request is rejected with 401 exactly when its token is wrong. */
  lemma TokenGate(req: Request, dataset: Option<seq<Row>>, asIs: int, reorder: (seq<User>, string, int) -> seq<User>)
    ensures Serve(req, dataset, asIs, reorder) == Failed(StatusUnauthorized, "Invalid access token")
      <==> Get(req.header, "AccessToken") != AccessToken
  {
  }

  /** When the order is not as-is, a 400 "ErrorBadOrderField" comes exactly
      from an order field other than "Id", "Age", "Name" and "". */
  lemma OrderFieldChecked(req: Request, rows: seq<Row>, asIs: int, reorder: (seq<User>, string, int) -> seq<User>)
    requires Get(req.header, "AccessToken") == AccessToken
    requires Atoi(Get(req.query, "order_by")).Some? && Atoi(Get(req.query, "order_by")).value != asIs
    ensures Serve(req, Some(rows), asIs, reorder) == Failed(StatusBadRequest, "ErrorBadOrderField")
      <==> !ValidOrderField(Get(req.query, "order_field"))
  {
  }

  /** Any parameter that is not a decimal number (a missing one included)
      ends the handler without a body. */
  lemma UnparsableParameters(req: Request, rows: seq<Row>, asIs: int, reorder: (seq<User>, string, int) -> seq<User>)
    requires Get(req.header, "AccessToken") == AccessToken
    requires Atoi(Get(req.query, "order_by")).None?
      || Atoi(Get(req.query, "limit")).None? || Atoi(Get(req.query, "offset")).None?
    requires Atoi(Get(req.query, "order_by")).Some? && Atoi(Get(req.query, "order_by")).value != asIs
      ==> ValidOrderField(Get(req.query, "order_field"))
    ensures Serve(req, Some(rows), asIs, reorder) == NoBody
  {
  }

  /** As-is order and no positive limit: every selected user, in dataset order. */
  lemma AsIsListsSelection(req: Request, rows: seq<Row>, asIs: int, reorder: (seq<User>, string, int) -> seq<User>)
    requires Get(req.header, "AccessToken") == AccessToken
    requires Atoi(Get(req.query, "order_by")) == Some(asIs)
    requires Atoi(Get(req.query, "limit")).Some? && Atoi(Get(req.query, "limit")).value <= 0
    requires Atoi(Get(req.query, "offset")).Some?
    ensures Serve(req, Some(rows), asIs, reorder) == Users(Selected(rows, Get(req.query, "query")))
  {
  }

  /** A page holds users of the list it is cut from, no more often than there,
      and no more than a positive limit of them. */
  lemma PageWithin<T>(resp: seq<T>, limit: int, offset: int)
    requires Page(resp, limit, offset).Some?
    ensures multiset(Page(resp, limit, offset).value) <= multiset(resp)
    ensures limit > 0 ==> |Page(resp, limit, offset).value| <= limit
  {
    if limit > 0 && 0 <= offset <= |resp| - 1 {
      var hi := Min(offset + limit, |resp|);
      assert resp == resp[..offset] + resp[offset..hi] + resp[hi..];
    }
  }

  /** When the reordering only permutes (as `sort.Slice` does), every listed
      user is a selected one, listed no more often than selected, and a
      positive limit bounds the number listed. */
  lemma ListedAreSelected(req: Request, rows: seq<Row>, asIs: int, reorder: (seq<User>, string, int) -> seq<User>)
    requires forall us, field, order :: multiset(reorder(us, field, order)) == multiset(us)
    requires Serve(req, Some(rows), asIs, reorder).Users?
    ensures var listed := Serve(req, Some(rows), asIs, reorder).users;
      multiset(listed) <= multiset(Selected(rows, Get(req.query, "query"))) &&
      (Atoi(Get(req.query, "limit")).value > 0 ==> |listed| <= Atoi(Get(req.query, "limit")).value)
  {
    var resp := Selected(rows, Get(req.query, "query"));
    var sortBy := Get(req.query, "order_field");
    var orderBy := Atoi(Get(req.query, "order_by")).value;
    var arranged := if orderBy != asIs then reorder(resp, sortBy, orderBy) else resp;
    var limit := Atoi(Get(req.query, "limit")).value;
    var offset := Atoi(Get(req.query, "offset")).value;
    assert Serve(req, Some(rows), asIs, reorder) == Users(Page(arranged, limit, offset).value);
    assert multiset(arranged) == multiset(resp);
    PageWithin(arranged, limit, offset);
  }

  /** Every listed user comes from a row that matches the query. */
  lemma ListedMatch(req: Request, rows: seq<Row>, asIs: int, reorder: (seq<User>, string, int) -> seq<User>, u: User)
    requires forall us, field, order :: multiset(reorder(us, field, order)) == multiset(us)
    requires Serve(req, Some(rows), asIs, reorder).Users?
    requires u in Serve(req, Some(rows), asIs, reorder).users
    ensures exists k :: 0 <= k < |rows| && Matches(rows[k], Get(req.query, "query")) && ToUser(rows[k]) == u
  {
    ListedAreSelected(req, rows, asIs, reorder);
    var listed := Serve(req, Some(rows), asIs, reorder).users;
    assert u in multiset(listed);
    SelectedMembers(rows, Get(req.query, "query"), u);
  }

  // ---------------------------------------------------------------------------
  // The overflow of offset + limit

  /** Where `offset + limit` fits in 64 bits the handler's pagination is `Page`. */
  lemma PageAsWrittenAgrees<T>(resp: seq<T>, limit: int, offset: int)
    requires MinInt64 <= limit && MinInt64 <= offset && offset + limit <= MaxInt64
    ensures PageAsWritten(resp, limit, offset) == Page(resp, limit, offset)
  {
    if limit > 0 {
      assert MinInt64 <= offset + limit;
      assert Wrap64(offset + limit) == offset + limit;
    }
  }

  /** With two users, `limit` the largest 64-bit number and `offset` 1 the sum
      wraps to the smallest one: the handler's slice panics where the second
      user was meant to be listed. */
  lemma PageOverflowPanics(a: User, b: User)
    ensures PageAsWritten([a, b], MaxInt64, 1) == None
    ensures Page([a, b], MaxInt64, 1) == Some([b])
  {
    assert Wrap64(1 + MaxInt64) == MinInt64;
    assert [a, b][1..2] == [b];
  }
}
