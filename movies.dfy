/**
 * The catalogue: the remote `movies` table and the `useMovies` hook that
 * queries it and keeps a local `movies` list in step with its own writes.
 */
module Movies {
  import opened Wrappers
  import opened Types

  const LOAD_FAILED := "Erro ao carregar doramas"
  const ADD_FAILED := "Erro ao adicionar dorama"
  const UPDATE_FAILED := "Erro ao atualizar dorama"
  const DELETE_FAILED := "Erro ao deletar dorama"
  /** The price every new row gets, in centavos (R$ 20,00). */
  const MOVIE_PRICE := 2000

  /**
   * What a caller supplies to `addMovie`: a row without `id`, `created_at`,
   * `updated_at`, and without the three columns `addMovie` overrides.
   */
  datatype NewMovie = NewMovie(
    title: string,
    description: Option<string>,
    embed_code: string,
    thumbnail_url: string,
    category: string,
    genre: Option<string>,
    tags: Option<seq<string>>,
    duration: Option<string>,
    embed_url: Option<string>)

  /** The five fields of the admin form, also the payload `updateMovie` receives. */
  datatype MovieFields = MovieFields(
    title: string,
    description: string,
    embed_code: string,
    thumbnail_url: string,
    category: string)

  predicate IsActive(m: Movie) { m.is_active == Some(true) }

  /** The optional genre filter of `fetchMovies`. */
  predicate InGenre(m: Movie, category: Option<MovieCategory>)
  {
    category.None? || m.genre == Some(CategoryValue(category.value))
  }

  /** `.eq('is_active', true)` and, with a category, `.eq('genre', category)`, in table order. */
  function ActiveInGenre(rows: seq<Movie>, category: Option<MovieCategory>): (r: seq<Movie>)
    ensures |r| <= |rows|
    ensures forall m :: m in r <==> m in rows && IsActive(m) && InGenre(m, category)
    ensures forall m :: IsActive(m) && InGenre(m, category) ==> multiset(r)[m] == multiset(rows)[m]
    ensures forall m :: !(IsActive(m) && InGenre(m, category)) ==> multiset(r)[m] == 0
  {
    if rows == [] then []
    else
      assert rows == [rows[0]] + rows[1..];
      var rest := ActiveInGenre(rows[1..], category);
      if IsActive(rows[0]) && InGenre(rows[0], category) then [rows[0]] + rest else rest
  }

  predicate NewestFirst(s: seq<Movie>)
  {
    forall i, j :: 0 <= i < j < |s| ==> s[i].created_at >= s[j].created_at
  }

  /** Places `m` before the first row that is not newer than it. */
  function InsertByDate(m: Movie, s: seq<Movie>): (r: seq<Movie>)
    ensures |r| == |s| + 1
  {
    if s == [] || s[0].created_at <= m.created_at then [m] + s
    else [s[0]] + InsertByDate(m, s[1..])
  }

  /** No row of `s` is newer than `t`. */
  predicate NotNewerThan(s: seq<Movie>, t: Timestamp)
  {
    forall k :: 0 <= k < |s| ==> s[k].created_at <= t
  }

  /** Inserting adds exactly `m`. */
  lemma {:induction false} InsertByDateAdds(m: Movie, s: seq<Movie>)
    ensures multiset(InsertByDate(m, s)) == multiset(s) + multiset{m}
  {
    if s != [] && s[0].created_at > m.created_at {
      InsertByDateAdds(m, s[1..]);
      assert s == [s[0]] + s[1..];
    }
  }

  /** Inserting a row no newer than `t` into rows no newer than `t` gives rows no newer than `t`. */
  lemma {:induction false} InsertByDateBound(m: Movie, s: seq<Movie>, t: Timestamp)
    requires NotNewerThan(s, t) && m.created_at <= t
    ensures NotNewerThan(InsertByDate(m, s), t)
  {
    if s != [] && s[0].created_at > m.created_at {
      InsertByDateBound(m, s[1..], t);
      var r := InsertByDate(m, s);
      forall k | 0 <= k < |r| ensures r[k].created_at <= t {
        if k > 0 {
          assert r[k] == InsertByDate(m, s[1..])[k - 1];
        }
      }
    }
  }

  /** A row no older than every row of a newest-first list can head it. */
  lemma ConsNewestFirst(x: Movie, rest: seq<Movie>)
    requires NewestFirst(rest) && NotNewerThan(rest, x.created_at)
    ensures NewestFirst([x] + rest)
  {
    var r := [x] + rest;
    forall i, j | 0 <= i < j < |r| ensures r[i].created_at >= r[j].created_at {
      assert r[j] == rest[j - 1];
      if i > 0 {
        assert r[i] == rest[i - 1];
      }
    }
  }

  /** Inserting into a newest-first list keeps it newest first. */
  lemma {:induction false} InsertByDateSorted(m: Movie, s: seq<Movie>)
    requires NewestFirst(s)
    ensures NewestFirst(InsertByDate(m, s))
  {
    if s == [] || s[0].created_at <= m.created_at {
      ConsNewestFirst(m, s);
    } else {
      var tail := s[1..];
      assert NewestFirst(tail) by {
        forall i, j | 0 <= i < j < |tail| ensures tail[i].created_at >= tail[j].created_at {
          assert tail[i] == s[i + 1] && tail[j] == s[j + 1];
        }
      }
      assert NotNewerThan(tail, s[0].created_at) by {
        forall k | 0 <= k < |tail| ensures tail[k].created_at <= s[0].created_at {
          assert tail[k] == s[k + 1];
        }
      }
      InsertByDateSorted(m, tail);
      InsertByDateBound(m, tail, s[0].created_at);
      ConsNewestFirst(s[0], InsertByDate(m, tail));
    }
  }

  /** Inserting into a newest-first list keeps it newest first and adds exactly `m`. */
  lemma InsertByDateCorrect(m: Movie, s: seq<Movie>)
    requires NewestFirst(s)
    ensures NewestFirst(InsertByDate(m, s))
    ensures multiset(InsertByDate(m, s)) == multiset(s) + multiset{m}
  {
    InsertByDateSorted(m, s);
    InsertByDateAdds(m, s);
  }

  /**
   * `.order('created_at', { ascending: false })`. Rows with equal timestamps
   * keep their table order (the store leaves that order unspecified).
   */
  function SortNewestFirst(s: seq<Movie>): (r: seq<Movie>)
    ensures |r| == |s|
  {
    if s == [] then [] else InsertByDate(s[0], SortNewestFirst(s[1..]))
  }

  /** Sorting yields a newest-first permutation. */
  lemma {:induction false} SortNewestFirstCorrect(s: seq<Movie>)
    ensures NewestFirst(SortNewestFirst(s))
    ensures multiset(SortNewestFirst(s)) == multiset(s)
  {
    if s != [] {
      SortNewestFirstCorrect(s[1..]);
      InsertByDateCorrect(s[0], SortNewestFirst(s[1..]));
      assert s == [s[0]] + s[1..];
    }
  }

  /** The rows `fetchMovies` receives. */
  function FetchQuery(rows: seq<Movie>, category: Option<MovieCategory>): (r: seq<Movie>)
    ensures |r| <= |rows|
  {
    SortNewestFirst(ActiveInGenre(rows, category))
  }

  /**
   * A fetch yields exactly the active rows (of the genre, when one is given),
   * each as often as in the table, newest first.
   */
  lemma FetchQueryCorrect(rows: seq<Movie>, category: Option<MovieCategory>)
    ensures NewestFirst(FetchQuery(rows, category))
    ensures forall m :: m in FetchQuery(rows, category) <==> m in rows && IsActive(m) && InGenre(m, category)
    ensures forall m :: IsActive(m) && InGenre(m, category) ==>
      multiset(FetchQuery(rows, category))[m] == multiset(rows)[m]
  {
    var q := FetchQuery(rows, category);
    SortNewestFirstCorrect(ActiveInGenre(rows, category));
    assert multiset(q) == multiset(ActiveInGenre(rows, category));
    forall m ensures m in q <==> m in ActiveInGenre(rows, category) {
      assert m in q <==> m in multiset(q);
    }
  }

  predicate HasId(rows: seq<Movie>, id: string)
  {
    exists m :: m in rows && m.id == id
  }

  /** The table's primary key: no two rows share an id. */
  predicate UniqueIds(rows: seq<Movie>)
  {
    forall i, j :: 0 <= i < j < |rows| ==> rows[i].id != rows[j].id
  }

  lemma SameIdSameRow(rows: seq<Movie>, a: Movie, b: Movie)
    requires UniqueIds(rows) && a in rows && b in rows && a.id == b.id
    ensures a == b
  {
    var i :| 0 <= i < |rows| && rows[i] == a;
    var j :| 0 <= j < |rows| && rows[j] == b;
    assert !(i < j) && !(j < i);
  }

  /** The first row with the id, active or not. */
  function FindById(rows: seq<Movie>, id: string): (r: Option<Movie>)
    ensures r.Some? ==> r.value in rows && r.value.id == id
    ensures r.None? <==> !HasId(rows, id)
  {
    if rows == [] then None
    else if rows[0].id == id then Some(rows[0])
    else
      var r := FindById(rows[1..], id);
      assert forall m :: m in rows && m.id == id ==> m in rows[1..];
      r
  }

  /** `.eq('id', id).eq('is_active', true)`, in table order. */
  function ActiveWithId(rows: seq<Movie>, id: string): (r: seq<Movie>)
    ensures forall m :: m in r <==> m in rows && m.id == id && IsActive(m)
  {
    if rows == [] then []
    else
      var rest := ActiveWithId(rows[1..], id);
      if rows[0].id == id && IsActive(rows[0]) then [rows[0]] + rest else rest
  }

  /**
   * `getMovieById`: `.single()` over the matching rows; anything but exactly
   * one match, or a failure, is caught and yields null.
   */
  function GetById(rows: seq<Movie>, id: string, fault: Option<StoreError>): (r: Option<Movie>)
    ensures r.Some? ==> fault.None? && r.value in rows && r.value.id == id && IsActive(r.value)
    ensures r.None? <==> fault.Some? || |ActiveWithId(rows, id)| != 1
  {
    if fault.Some? then None
    else
      var matches := ActiveWithId(rows, id);
      if |matches| == 1 then (assert matches[0] in matches; Some(matches[0])) else None
  }

  /** With a unique key, the one active row with the id is found. */
  lemma {:induction false} GetByIdFinds(rows: seq<Movie>, m: Movie)
    requires UniqueIds(rows) && m in rows && IsActive(m)
    ensures GetById(rows, m.id, None) == Some(m)
  {
    var matches := ActiveWithId(rows, m.id);
    ActiveWithIdAtMostOnce(rows, m.id);
    assert m in matches;
    assert matches[0] in matches;
    SameIdSameRow(rows, matches[0], m);
  }

  lemma {:induction false} NoIdNoMatch(rows: seq<Movie>, id: string)
    requires forall k :: 0 <= k < |rows| ==> rows[k].id != id
    ensures ActiveWithId(rows, id) == []
  {
    if rows != [] {
      NoIdNoMatch(rows[1..], id);
    }
  }

  /** With a unique key, at most one row matches an id. */
  lemma {:induction false} ActiveWithIdAtMostOnce(rows: seq<Movie>, id: string)
    requires UniqueIds(rows)
    ensures |ActiveWithId(rows, id)| <= 1
  {
    if rows != [] {
      assert UniqueIds(rows[1..]) by {
        forall i, j | 0 <= i < j < |rows[1..]| ensures rows[1..][i].id != rows[1..][j].id {
          assert rows[1..][i] == rows[i + 1] && rows[1..][j] == rows[j + 1];
        }
      }
      ActiveWithIdAtMostOnce(rows[1..], id);
      if rows[0].id == id && IsActive(rows[0]) {
        forall k | 0 <= k < |rows[1..]| ensures rows[1..][k].id != id {
          assert rows[1..][k] == rows[k + 1];
        }
        NoIdNoMatch(rows[1..], id);
      }
    }
  }

  /** The form fields written over a row; every other column is kept. */
  function ApplyFields(m: Movie, f: MovieFields): (u: Movie)
    ensures u.title == f.title && u.description == Some(f.description) && u.embed_code == f.embed_code
    ensures u.thumbnail_url == f.thumbnail_url && u.category == f.category
    ensures u.(title := m.title, description := m.description, embed_code := m.embed_code,
      thumbnail_url := m.thumbnail_url, category := m.category) == m
  {
    m.(title := f.title, description := Some(f.description), embed_code := f.embed_code,
       thumbnail_url := f.thumbnail_url, category := f.category)
  }

  /** `update(fields).eq('id', id)` on the table. */
  function UpdateRows(rows: seq<Movie>, id: string, f: MovieFields): (r: seq<Movie>)
    ensures |r| == |rows|
    ensures forall i :: 0 <= i < |rows| ==> r[i].id == rows[i].id && r[i].created_at == rows[i].created_at
    ensures forall i :: 0 <= i < |rows| && rows[i].id != id ==> r[i] == rows[i]
    ensures forall i :: 0 <= i < |rows| && rows[i].id == id ==> r[i] == ApplyFields(rows[i], f)
  {
    seq(|rows|, i requires 0 <= i < |rows| => if rows[i].id == id then ApplyFields(rows[i], f) else rows[i])
  }

  /** `update({ is_active: false }).eq('id', id)` on the table. */
  function SoftDeleteRows(rows: seq<Movie>, id: string): (r: seq<Movie>)
    ensures |r| == |rows|
    ensures forall i :: 0 <= i < |rows| && rows[i].id != id ==> r[i] == rows[i]
    ensures forall i :: 0 <= i < |rows| && rows[i].id == id ==>
      !IsActive(r[i]) && r[i].(is_active := rows[i].is_active) == rows[i]
  {
    seq(|rows|, i requires 0 <= i < |rows| => if rows[i].id == id then rows[i].(is_active := Some(false)) else rows[i])
  }

  /** Updating keeps the key unique and every row with another id. */
  lemma UpdateRowsFrame(rows: seq<Movie>, id: string, f: MovieFields)
    requires UniqueIds(rows)
    ensures UniqueIds(UpdateRows(rows, id, f))
    ensures forall m :: m in rows && m.id != id ==> m in UpdateRows(rows, id, f)
    ensures forall m :: m in UpdateRows(rows, id, f) && m.id != id ==> m in rows
  {
    var r := UpdateRows(rows, id, f);
    forall m | m in rows && m.id != id ensures m in r {
      var i :| 0 <= i < |rows| && rows[i] == m;
      assert r[i] == m;
    }
  }

  /**
   * Round trip: after an update, reading the row back gives the form's fields
   * and every other column (timestamps included) unchanged.
   */
  lemma UpdateThenGet(rows: seq<Movie>, m: Movie, f: MovieFields)
    requires UniqueIds(rows) && m in rows && IsActive(m)
    ensures GetById(UpdateRows(rows, m.id, f), m.id, None) == Some(ApplyFields(m, f))
    ensures ApplyFields(m, f).title == f.title && ApplyFields(m, f).category == f.category
    ensures ApplyFields(m, f).(title := m.title, description := m.description, embed_code := m.embed_code,
      thumbnail_url := m.thumbnail_url, category := m.category) == m
  {
    UpdateRowsFrame(rows, m.id, f);
    var r := UpdateRows(rows, m.id, f);
    var i :| 0 <= i < |rows| && rows[i] == m;
    assert r[i] == ApplyFields(m, f);
    GetByIdFinds(r, ApplyFields(m, f));
  }

  /**
   * A soft delete keeps the row in the table (same length, same ids), and
   * afterwards neither a fetch nor a lookup by id returns it.
   */
  lemma SoftDeleteHides(rows: seq<Movie>, id: string, category: Option<MovieCategory>, fault: Option<StoreError>)
    ensures |SoftDeleteRows(rows, id)| == |rows|
    ensures forall i :: 0 <= i < |rows| ==> SoftDeleteRows(rows, id)[i].id == rows[i].id
    ensures GetById(SoftDeleteRows(rows, id), id, fault).None?
    ensures forall m :: m in FetchQuery(SoftDeleteRows(rows, id), category) ==> m.id != id
  {
    FetchQueryCorrect(SoftDeleteRows(rows, id), category);
  }

  /** `prev.map(movie => movie.id === id ? data : movie)`. */
  function ReplaceById(list: seq<Movie>, id: string, data: Movie): (r: seq<Movie>)
    ensures |r| == |list|
  {
    if list == [] then []
    else [if list[0].id == id then data else list[0]] + ReplaceById(list[1..], id, data)
  }

  /** The replacement touches exactly the entries with the id, position by position. */
  lemma {:induction false} ReplaceByIdAt(list: seq<Movie>, id: string, data: Movie)
    ensures |ReplaceById(list, id, data)| == |list|
    ensures forall i :: 0 <= i < |list| ==>
      ReplaceById(list, id, data)[i] == if list[i].id == id then data else list[i]
  {
    if list != [] {
      ReplaceByIdAt(list[1..], id, data);
    }
  }

  /** `prev.filter(movie => movie.id !== id)`. */
  function RemoveById(list: seq<Movie>, id: string): (r: seq<Movie>)
    ensures forall m :: m in r <==> m in list && m.id != id
    ensures forall m :: multiset(r)[m] == if m.id != id then multiset(list)[m] else 0
  {
    if list == [] then []
    else
      assert list == [list[0]] + list[1..];
      if list[0].id == id then RemoveById(list[1..], id)
      else [list[0]] + RemoveById(list[1..], id)
  }

  /** Removal keeps the order of what remains: it distributes over concatenation. */
  lemma {:induction false} RemoveByIdKeepsOrder(a: seq<Movie>, b: seq<Movie>, id: string)
    ensures RemoveById(a + b, id) == RemoveById(a, id) + RemoveById(b, id)
  {
    if a == [] {
      assert a + b == b;
    } else {
      assert (a + b)[0] == a[0] && (a + b)[1..] == a[1..] + b;
      RemoveByIdKeepsOrder(a[1..], b, id);
    }
  }

  /** The row `addMovie` stores: the caller's fields plus active, no sales, the fixed price. */
  function StoredRow(draft: NewMovie, id: string, now: Timestamp): (m: Movie)
    ensures IsActive(m) && m.sales_count == Some(0) && m.price == Some(2000)
    ensures m.id == id && m.created_at == now && m.updated_at == now
    ensures m.title == draft.title && m.description == draft.description && m.embed_code == draft.embed_code
    ensures m.thumbnail_url == draft.thumbnail_url && m.category == draft.category
    ensures m.genre == draft.genre && m.tags == draft.tags && m.duration == draft.duration
    ensures m.embed_url == draft.embed_url
  {
    Movie(id, draft.title, draft.description, draft.embed_code, draft.thumbnail_url, draft.category,
      now, now, draft.genre, draft.tags, draft.duration, Some(0), draft.embed_url, Some(true), Some(MOVIE_PRICE))
  }

  /** The remote `movies` table. */
  class MovieStore {
    var rows: seq<Movie>
    /** Whether the errors this store reports itself are JavaScript `Error` instances. */
    const errorInstances: bool

    predicate Valid()
      reads this
    {
      UniqueIds(rows)
    }

    constructor (rows: seq<Movie>, errorInstances: bool)
      requires UniqueIds(rows)
      ensures Valid() && this.rows == rows && this.errorInstances == errorInstances
    {
      this.rows := rows;
      this.errorInstances := errorInstances;
    }

    /** `insert([row]).select().single()`: a clash on the key fails and stores nothing. */
    method Insert(row: Movie, fault: Option<StoreError>) returns (r: Result<Movie, StoreError>)
      requires Valid()
      modifies this
      ensures Valid()
      ensures fault.Some? ==> r == Err(fault.value) && rows == old(rows)
      ensures fault.None? && HasId(old(rows), row.id) ==>
        r == Err(StoreError(DUPLICATE_KEY, DUPLICATE_MESSAGE, errorInstances)) && rows == old(rows)
      ensures fault.None? && !HasId(old(rows), row.id) ==> r == Ok(row) && rows == old(rows) + [row]
    {
      if fault.Some? {
        return Err(fault.value);
      }
      if FindById(rows, row.id).Some? {
        return Err(StoreError(DUPLICATE_KEY, DUPLICATE_MESSAGE, errorInstances));
      }
      rows := rows + [row];
      r := Ok(row);
    }

    /**
     * `update(fields).eq('id', id).select().single()`: the write applies to
     * every row with the id; `.single()` then fails when there was none.
     */
    method Update(id: string, f: MovieFields, fault: Option<StoreError>) returns (r: Result<Movie, StoreError>)
      requires Valid()
      modifies this
      ensures Valid()
      ensures fault.Some? ==> r == Err(fault.value) && rows == old(rows)
      ensures fault.None? ==> rows == UpdateRows(old(rows), id, f)
      ensures fault.None? ==> (r.Ok? <==> HasId(old(rows), id))
      ensures r.Err? && fault.None? ==> r.error == StoreError(NO_ROWS, NO_ROWS_MESSAGE, errorInstances)
      ensures r.Ok? ==> forall m :: m in old(rows) && m.id == id ==> r.value == ApplyFields(m, f)
    {
      if fault.Some? {
        return Err(fault.value);
      }
      var found := FindById(rows, id);
      UpdateRowsFrame(rows, id, f);
      forall m | m in rows && m.id == id ensures found == Some(m) {
        SameIdSameRow(rows, found.value, m);
      }
      rows := UpdateRows(rows, id, f);
      if found.None? {
        return Err(StoreError(NO_ROWS, NO_ROWS_MESSAGE, errorInstances));
      }
      r := Ok(ApplyFields(found.value, f));
    }

    /** `update({ is_active: false }).eq('id', id)`, without `.single()`. */
    method SoftDelete(id: string, fault: Option<StoreError>) returns (r: Outcome<StoreError>)
      requires Valid()
      modifies this
      ensures Valid()
      ensures fault.Some? ==> r == Fail(fault.value) && rows == old(rows)
      ensures fault.None? ==> r == Pass && rows == SoftDeleteRows(old(rows), id)
    {
      if fault.Some? {
        return Fail(fault.value);
      }
      rows := SoftDeleteRows(rows, id);
      r := Pass;
    }
  }

  /** The state of one `useMovies(category)` hook. */
  class MoviesHook {
    const store: MovieStore
    const category: Option<MovieCategory>
    var movies: seq<Movie>
    var loading: bool
    var error: Option<string>

    constructor (store: MovieStore, category: Option<MovieCategory>)
      ensures this.store == store && this.category == category
      ensures movies == [] && loading && error.None?
    {
      this.store := store;
      this.category := category;
      movies := [];
      loading := true;
      error := None;
    }

    /**
     * `fetchMovies`: on success the list becomes the query's rows; on failure
     * the list is kept and `error` set. A success does not clear an earlier
     * error. `loading` ends false either way.
     */
    method FetchMovies(fault: Option<StoreError>)
      modifies this
      ensures fault.None? ==> movies == FetchQuery(store.rows, category) && error == old(error)
      ensures fault.Some? ==> movies == old(movies) && error == Some(ThrownMessage(fault.value, LOAD_FAILED))
      ensures !loading
    {
      loading := true;
      if fault.Some? {
        error := Some(ThrownMessage(fault.value, LOAD_FAILED));
      } else {
        movies := FetchQuery(store.rows, category);
      }
      loading := false;
    }

    /**
     * `getMovieById`: reads the table and never throws; a failed read is
     * logged (`logged`) and yields null.
     */
    method GetMovieById(id: string, fault: Option<StoreError>) returns (r: Option<Movie>, logged: bool)
      ensures r == GetById(store.rows, id, fault)
      ensures r.Some? ==> r.value in store.rows && r.value.id == id && IsActive(r.value)
      ensures logged <==> fault.Some? || |ActiveWithId(store.rows, id)| != 1
    {
      r := GetById(store.rows, id, fault);
      logged := r.None?;
    }

    /**
     * `addMovie`: stores the row with the defaults and prepends it to the
     * list; a failure changes neither and rethrows.
     */
    method AddMovie(draft: NewMovie, newId: string, now: Timestamp, fault: Option<StoreError>)
      returns (r: Result<Movie, string>)
      requires store.Valid()
      modifies this, store
      ensures store.Valid()
      ensures r.Ok? ==> (r.value == StoredRow(draft, newId, now) && store.rows == old(store.rows) + [r.value]
        && movies == [r.value] + old(movies))
      ensures r.Err? ==> store.rows == old(store.rows) && movies == old(movies)
      ensures fault.Some? ==> r == Err(ThrownMessage(fault.value, ADD_FAILED))
      ensures fault.None? && r.Err? ==>
        r.error == ThrownMessage(StoreError(DUPLICATE_KEY, DUPLICATE_MESSAGE, store.errorInstances), ADD_FAILED)
      ensures fault.None? ==> (r.Ok? <==> !HasId(old(store.rows), newId))
      ensures loading == old(loading) && error == old(error)
    {
      var inserted := store.Insert(StoredRow(draft, newId, now), fault);
      if inserted.Err? {
        return Err(ThrownMessage(inserted.error, ADD_FAILED));
      }
      movies := [inserted.value] + movies;
      r := Ok(inserted.value);
    }

    /**
     * `updateMovie`: writes the fields to the row and replaces the list
     * entries with that id by the returned row; a failure leaves the list.
     */
    method UpdateMovie(id: string, f: MovieFields, fault: Option<StoreError>) returns (r: Result<Movie, string>)
      requires store.Valid()
      modifies this, store
      ensures store.Valid()
      ensures store.rows == if fault.None? then UpdateRows(old(store.rows), id, f) else old(store.rows)
      ensures r.Ok? ==> movies == ReplaceById(old(movies), id, r.value)
      ensures r.Ok? ==> forall m :: m in old(store.rows) && m.id == id ==> r.value == ApplyFields(m, f)
      ensures r.Err? ==> movies == old(movies)
      ensures fault.Some? ==> r == Err(ThrownMessage(fault.value, UPDATE_FAILED))
      ensures fault.None? && r.Err? ==>
        r.error == ThrownMessage(StoreError(NO_ROWS, NO_ROWS_MESSAGE, store.errorInstances), UPDATE_FAILED)
      ensures fault.None? ==> (r.Ok? <==> HasId(old(store.rows), id))
      ensures loading == old(loading) && error == old(error)
    {
      var updated := store.Update(id, f, fault);
      if updated.Err? {
        return Err(ThrownMessage(updated.error, UPDATE_FAILED));
      }
      movies := ReplaceById(movies, id, updated.value);
      r := Ok(updated.value);
    }

    /**
     * `deleteMovie`: a soft delete in the table, then every list entry with
     * the id is dropped; a failure changes neither and rethrows.
     */
    method DeleteMovie(id: string, fault: Option<StoreError>) returns (r: Outcome<string>)
      requires store.Valid()
      modifies this, store
      ensures store.Valid()
      ensures fault.None? ==> (r == Pass && store.rows == SoftDeleteRows(old(store.rows), id)
        && movies == RemoveById(old(movies), id))
      ensures fault.Some? ==> (r == Fail(ThrownMessage(fault.value, DELETE_FAILED))
        && store.rows == old(store.rows) && movies == old(movies))
      ensures loading == old(loading) && error == old(error)
    {
      var deleted := store.SoftDelete(id, fault);
      if deleted.Fail? {
        return Fail(ThrownMessage(deleted.error, DELETE_FAILED));
      }
      movies := RemoveById(movies, id);
      r := Pass;
    }
  }
}
