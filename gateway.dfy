/** The external services the worker talks to: the session tables, the credit-refund RPC,
    object storage, image downloads and the image-generation API. Their state is a `World`
    value; the class `Backend` holds it and offers one method per call the worker makes.
    Every call is appended to `calls`, whether it succeeds or raises, so the order of the
    worker's calls can be stated; a call that raises changes nothing else. */
module Gateway {
  import opened Prelude
  import opened Generation
  import OpenAIClient

  /** A session row: its status, the two columns the worker writes, and the owner column
      (`user_id` or `store_id`, depending on the table). */
  datatype Session = Session(
    status: SessionStatus,
    resultImageUrl: Option<string>,
    errorMessage: Option<string>,
    owner: Option<string>)

  /** Rows keyed by `id`. */
  type Table = map<string, Session>

  /** A row as the reconciler selects it: `id` and the owner column. */
  datatype Row = Row(id: string, owner: Option<string>)

  /** One `refund_credits` call: the owner parameter's name (`p_user_id` or `p_store_id`),
      the owner id, and `p_amount`. */
  datatype Refund = Refund(ownerParam: string, ownerId: string, amount: int)

  datatype Call =
    | UpdateSession(table: string, id: string, update: SessionUpdate)
    | SelectInFlight(table: string, ownerField: string)
    | RefundCredits(refund: Refund)
    | DownloadImage(url: string, name: string)
    | GenerateImage(filenames: seq<string>, prompt: string)
    | UploadObject(bucket: string, path: string, contentType: string)
    | CreateSignedUrl(bucket: string, path: string, expiresIn: int)

  datatype World = World(
    tables: map<string, Table>,
    refunds: seq<Refund>,
    storage: map<string, Bytes>,
    calls: seq<Call>)

  /** What downloading and resizing one image does. */
  datatype Fetch = Fetched(bytes: Bytes) | FetchRaises

  /** What `create_signed_url` does: it raises, or it returns a response whose `signedURL`
      key may be missing. */
  datatype Signing = SignRaises | Signed(signedUrl: Option<string>)

  /** Credits given back by every refund the worker requests. */
  const REFUND_AMOUNT: int := 1

  const BUCKET: string := "images"
  const JPEG: string := "image/jpeg"

  /** A row after an update: the status is replaced, a field the update carries replaces
      the column, and every other column is kept. */
  function Apply(row: Session, u: SessionUpdate): Session {
    Session(
      u.status,
      if u.resultImageUrl.Some? then u.resultImageUrl else row.resultImageUrl,
      if u.errorMessage.Some? then u.errorMessage else row.errorMessage,
      row.owner)
  }

  /** A write of the status alone replaces the status and keeps every other column, so the
      result URL and error message of an earlier run survive it. */
  lemma StatusOnlyWrite(row: Session, s: SessionStatus)
    ensures Apply(row, StatusOnly(s)) == row.(status := s)
    ensures Apply(row, StatusOnly(s)).resultImageUrl == row.resultImageUrl
    ensures Apply(row, StatusOnly(s)).errorMessage == row.errorMessage
  {
  }

  function Logged(w: World, c: Call): World {
    w.(calls := w.calls + [c])
  }

  /** `table(table).update(u).eq('id', id).execute()`: no row matches an unknown id. */
  function Updated(w: World, table: string, id: string, u: SessionUpdate, o: Outcome): World {
    var w1 := Logged(w, UpdateSession(table, id, u));
    if o.Raises? || table !in w.tables || id !in w.tables[table] then w1
    else w1.(tables := w.tables[table := w.tables[table][id := Apply(w.tables[table][id], u)]])
  }

  /** `rpc('refund_credits', {ownerParam: owner, 'p_amount': amount})`. */
  function Refunded(w: World, ownerParam: string, owner: string, amount: int, o: Outcome): World {
    var r := Refund(ownerParam, owner, amount);
    var w1 := Logged(w, RefundCredits(r));
    if o.Raises? then w1 else w1.(refunds := w.refunds + [r])
  }

  function Uploaded(w: World, path: string, bytes: Bytes, o: Outcome): World {
    var w1 := Logged(w, UploadObject(BUCKET, path, JPEG));
    if o.Raises? then w1 else w1.(storage := w.storage[path := bytes])
  }

  /** `after` is `before` with calls appended. */
  predicate Extends(before: seq<Call>, after: seq<Call>) {
    |before| <= |after| && after[..|before|] == before
  }

  lemma ExtendsTrans(a: seq<Call>, b: seq<Call>, c: seq<Call>)
    requires Extends(a, b) && Extends(b, c)
    ensures Extends(a, c)
  {
    assert c[..|a|] == c[..|b|][..|a|];
  }

  function InFlightIds(tbl: Table): set<string> {
    set id | id in tbl && InFlight(tbl[id].status)
  }

  function RowIds(rows: seq<Row>): set<string> {
    set r | r in rows :: r.id
  }

  predicate DistinctIds(rows: seq<Row>) {
    forall i, j :: 0 <= i < j < |rows| ==> rows[i].id != rows[j].id
  }

  /** `rows` lists every in-flight row of `tbl` once, with its owner, in some order. */
  predicate IsListing(tbl: Table, rows: seq<Row>) {
    && RowIds(rows) == InFlightIds(tbl)
    && DistinctIds(rows)
    && (forall r :: r in rows ==> r.id in tbl && r.owner == tbl[r.id].owner)
  }

  /** Only the row `id` of `table` may differ, and not in its owner column. */
  predicate OnlyRowChanged(before: map<string, Table>, after: map<string, Table>, table: string, id: string) {
    && before.Keys == after.Keys
    && (forall t :: t in before && t != table ==> after[t] == before[t])
    && (table in before ==>
          && after[table].Keys == before[table].Keys
          && (forall i :: i in before[table] && i != id ==> after[table][i] == before[table][i])
          && (id in before[table] ==> after[table][id].owner == before[table][id].owner))
  }

  lemma RowIdsMember(rows: seq<Row>)
    ensures forall i :: 0 <= i < |rows| ==> rows[i].id in RowIds(rows)
    ensures forall r :: r in rows ==> exists i :: 0 <= i < |rows| && rows[i] == r
  {
  }

  lemma RowIdsAppend(rows: seq<Row>, r: Row)
    ensures RowIds(rows + [r]) == RowIds(rows) + {r.id}
  {
    var ext := rows + [r];
    assert forall x :: x in ext <==> x in rows || x == r;
  }

  /** `rows` lists, each once and with its owner, the in-flight rows of `tbl` outside `pending`. */
  predicate ListedSoFar(tbl: Table, rows: seq<Row>, pending: set<string>) {
    && RowIds(rows) !! pending
    && RowIds(rows) + pending == InFlightIds(tbl)
    && (forall i :: 0 <= i < |rows| ==> rows[i].id in tbl && rows[i].owner == tbl[rows[i].id].owner)
    && (forall i, j :: 0 <= i < j < |rows| ==> rows[i].id != rows[j].id)
  }

  lemma ListOne(tbl: Table, rows: seq<Row>, pending: set<string>, id: string)
    requires ListedSoFar(tbl, rows, pending) && id in pending
    ensures id in tbl
    ensures ListedSoFar(tbl, rows + [Row(id, tbl[id].owner)], pending - {id})
  {
    RowIdsMember(rows);
    RowIdsAppend(rows, Row(id, tbl[id].owner));
  }

  lemma ListedAll(tbl: Table, rows: seq<Row>)
    requires ListedSoFar(tbl, rows, {})
    ensures IsListing(tbl, rows)
  {
    RowIdsMember(rows);
  }

  /** The rows of `tbl` that are in flight, each once, in an order the store chooses. */
  method ListRows(tbl: Table) returns (rows: seq<Row>)
    ensures IsListing(tbl, rows)
  {
    rows := [];
    var pending := InFlightIds(tbl);
    while pending != {}
      invariant ListedSoFar(tbl, rows, pending)
      decreases |pending|
    {
      var id :| id in pending;
      ListOne(tbl, rows, pending, id);
      rows := rows + [Row(id, tbl[id].owner)];
      pending := pending - {id};
    }
    ListedAll(tbl, rows);
  }

  class Backend {
    var tables: map<string, Table>
    var refunds: seq<Refund>
    var storage: map<string, Bytes>
    var calls: seq<Call>

    function State(): World
      reads this
    {
      World(tables, refunds, storage, calls)
    }

    constructor (w: World)
      ensures State() == w
    {
      tables, refunds, storage, calls := w.tables, w.refunds, w.storage, w.calls;
    }

    method Update(table: string, id: string, u: SessionUpdate, o: Outcome) returns (raised: bool)
      modifies this
      ensures raised == o.Raises?
      ensures State() == Updated(old(State()), table, id, u, o)
    {
      calls := calls + [UpdateSession(table, id, u)];
      raised := o.Raises?;
      if !raised && table in tables && id in tables[table] {
        tables := tables[table := tables[table][id := Apply(tables[table][id], u)]];
      }
    }

    method RequestRefund(ownerParam: string, owner: string, amount: int, o: Outcome) returns (raised: bool)
      modifies this
      ensures raised == o.Raises?
      ensures State() == Refunded(old(State()), ownerParam, owner, amount, o)
    {
      var r := Refund(ownerParam, owner, amount);
      calls := calls + [RefundCredits(r)];
      raised := o.Raises?;
      if !raised {
        refunds := refunds + [r];
      }
    }

    /** `select('id, ' + ownerField).in_('status', ['queued', 'processing'])`: the rows come
        back in an order the store chooses. An unknown table raises. */
    method ListInFlight(table: string, ownerField: string, o: Outcome) returns (rows: seq<Row>, raised: bool)
      modifies this
      ensures State() == Logged(old(State()), SelectInFlight(table, ownerField))
      ensures raised == (o.Raises? || table !in tables)
      ensures !raised ==> IsListing(tables[table], rows)
      ensures raised ==> rows == []
    {
      calls := calls + [SelectInFlight(table, ownerField)];
      rows := [];
      raised := o.Raises? || table !in tables;
      if raised {
        return;
      }
      rows := ListRows(tables[table]);
    }

    /** `download_and_resize(url, name)`. */
    method Download(url: string, name: string, f: Fetch) returns (bytes: Option<Bytes>)
      modifies this
      ensures State() == Logged(old(State()), DownloadImage(url, name))
      ensures bytes == if f.Fetched? then Some(f.bytes) else None
    {
      calls := calls + [DownloadImage(url, name)];
      bytes := if f.Fetched? then Some(f.bytes) else None;
    }

    /** `generate_tryon(images, prompt)` with the configured number of attempts. */
    method Generate(images: seq<(string, Bytes)>, prompt: string, send: int -> OpenAIClient.Attempt)
      returns (result: Result<Bytes, OpenAIClient.ImageError>)
      modifies this
      ensures State() == Logged(old(State()), GenerateImage(Filenames(images), prompt))
      ensures result == OpenAIClient.TryFrom(1, OpenAIClient.OPENAI_MAX_RETRIES, send).result
    {
      calls := calls + [GenerateImage(Filenames(images), prompt)];
      var delays, posts;
      result, delays, posts := OpenAIClient.GenerateTryon(images, prompt, OpenAIClient.OPENAI_MAX_RETRIES, send);
    }

    /** `storage.from_('images').upload(path, bytes, {'content-type': 'image/jpeg'})`. */
    method Upload(path: string, bytes: Bytes, o: Outcome) returns (raised: bool)
      modifies this
      ensures raised == o.Raises?
      ensures State() == Uploaded(old(State()), path, bytes, o)
    {
      calls := calls + [UploadObject(BUCKET, path, JPEG)];
      raised := o.Raises?;
      if !raised {
        storage := storage[path := bytes];
      }
    }

    /** `storage.from_('images').create_signed_url(path, expiresIn)`. */
    method SignedUrl(path: string, expiresIn: int, g: Signing) returns (signed: Option<Option<string>>)
      modifies this
      ensures State() == Logged(old(State()), CreateSignedUrl(BUCKET, path, expiresIn))
      ensures signed == if g.Signed? then Some(g.signedUrl) else None
    {
      calls := calls + [CreateSignedUrl(BUCKET, path, expiresIn)];
      signed := if g.Signed? then Some(g.signedUrl) else None;
    }
  }

  function Filenames(images: seq<(string, Bytes)>): (names: seq<string>)
    ensures |names| == |images|
    ensures forall k :: 0 <= k < |images| ==> names[k] == images[k].0
  {
    if images == [] then [] else [images[0].0] + Filenames(images[1..])
  }
}
