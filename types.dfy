/**
 * The shared data shapes: the catalogue row `Movie`, the signed-in `User`,
 * the closed `MovieCategory` enum with its label table, and the error value a
 * store call reports.
 */
module Types {
  import opened Wrappers

  /** Timestamps are instants on an integer clock. */
  type Timestamp = int

  datatype User = User(id: string, email: string)

  /**
   * A row of the `movies` table. The first eight fields are the declared
   * interface (`description` optional); the rest are columns other files
   * read or write, all optional.
   */
  datatype Movie = Movie(
    id: string,
    title: string,
    description: Option<string>,
    embed_code: string,
    thumbnail_url: string,
    category: string,
    created_at: Timestamp,
    updated_at: Timestamp,
    genre: Option<string>,
    tags: Option<seq<string>>,
    duration: Option<string>,
    sales_count: Option<int>,
    embed_url: Option<string>,
    is_active: Option<bool>,
    price: Option<int>)

  /**
   * The error value a store call reports: a code (e.g. "PGRST116"), a
   * message, and whether the value is a JavaScript `Error` instance.
   */
  datatype StoreError = StoreError(code: string, message: string, isErrorInstance: bool)

  /** The code the store reports when `.single()` finds no row. */
  const NO_ROWS := "PGRST116"
  /** The code the store reports for a primary-key clash. */
  const DUPLICATE_KEY := "23505"
  /** The message of the "no rows" error. */
  const NO_ROWS_MESSAGE := "JSON object requested, multiple (or no) rows returned"
  /** The message of the primary-key clash error. */
  const DUPLICATE_MESSAGE := "duplicate key value violates unique constraint"

  /**
   * The message of what a `catch` rethrows as
   * `error instanceof Error ? error : new Error(fallback)`.
   */
  function ThrownMessage(e: StoreError, fallback: string): (m: string)
    ensures e.isErrorInstance ==> m == e.message
    ensures !e.isErrorInstance ==> m == fallback
  {
    if e.isErrorInstance then e.message else fallback
  }

  datatype MovieCategory = Action | Comedy | Drama | Horror | SciFi | Thriller | Romance | Documentary

  /** The string literal of each enum member. */
  function CategoryValue(c: MovieCategory): string
  {
    match c
    case Action => "action"
    case Comedy => "comedy"
    case Drama => "drama"
    case Horror => "horror"
    case SciFi => "sci-fi"
    case Thriller => "thriller"
    case Romance => "romance"
    case Documentary => "documentary"
  }

  const ALL_CATEGORIES: seq<MovieCategory> :=
    [Action, Comedy, Drama, Horror, SciFi, Thriller, Romance, Documentary]

  /** Reads a string as a member of the closed enum, if it is one. */
  function ParseCategory(s: string): (r: Option<MovieCategory>)
    ensures r.Some? ==> CategoryValue(r.value) == s
    ensures r.None? ==> forall c :: CategoryValue(c) != s
  {
    if s == "action" then Some(Action)
    else if s == "comedy" then Some(Comedy)
    else if s == "drama" then Some(Drama)
    else if s == "horror" then Some(Horror)
    else if s == "sci-fi" then Some(SciFi)
    else if s == "thriller" then Some(Thriller)
    else if s == "romance" then Some(Romance)
    else if s == "documentary" then Some(Documentary)
    else None
  }

  /** The enum is closed: exactly eight members, each with its own string. */
  lemma CategoryIsClosed()
    ensures |ALL_CATEGORIES| == 8
    ensures forall c :: c in ALL_CATEGORIES
    ensures forall i, j :: 0 <= i < j < |ALL_CATEGORIES| ==>
      CategoryValue(ALL_CATEGORIES[i]) != CategoryValue(ALL_CATEGORIES[j])
    ensures forall c :: ParseCategory(CategoryValue(c)) == Some(c)
  {
    forall c ensures c in ALL_CATEGORIES && ParseCategory(CategoryValue(c)) == Some(c) {
      match c
      case Action =>
      case Comedy =>
      case Drama =>
      case Horror =>
      case SciFi =>
      case Thriller =>
      case Romance =>
      case Documentary =>
    }
  }

  datatype CategoryEntry = CategoryEntry(value: MovieCategory, text: string)  // `text` is the source's `label` (a reserved word here)

  /** The label table the forms and the player use. */
  const MOVIE_CATEGORIES: seq<CategoryEntry> := [
    CategoryEntry(Action, "Ação"),
    CategoryEntry(Comedy, "Comédia"),
    CategoryEntry(Drama, "Drama"),
    CategoryEntry(Horror, "Terror"),
    CategoryEntry(Thriller, "Suspense"),
    CategoryEntry(Romance, "Romance")
  ]

  /** The entries' values, as strings, are pairwise distinct. */
  predicate DistinctValues(table: seq<CategoryEntry>)
  {
    forall i, j :: 0 <= i < j < |table| ==> CategoryValue(table[i].value) != CategoryValue(table[j].value)
  }

  /** Six entries, values pairwise distinct; "sci-fi" and "documentary" have none. */
  lemma CategoryTableShape()
    ensures |MOVIE_CATEGORIES| == 6
    ensures DistinctValues(MOVIE_CATEGORIES)
    ensures forall e :: e in MOVIE_CATEGORIES ==> e.value != SciFi && e.value != Documentary
  {
  }

  /** `table.find(cat => cat.value === value)`: the first entry whose value matches. */
  function FindCategory(table: seq<CategoryEntry>, value: string): (r: Option<CategoryEntry>)
    ensures r.None? <==> forall e :: e in table ==> CategoryValue(e.value) != value
    ensures r.Some? ==> exists k :: (0 <= k < |table| && table[k] == r.value
      && CategoryValue(r.value.value) == value
      && forall j :: 0 <= j < k ==> CategoryValue(table[j].value) != value)
  {
    if table == [] then None
    else if CategoryValue(table[0].value) == value then Some(table[0])
    else
      var r := FindCategory(table[1..], value);
      if r.Some? then
        var k :| (0 <= k < |table[1..]| && table[1..][k] == r.value
          && CategoryValue(r.value.value) == value
          && forall j :: 0 <= j < k ==> CategoryValue(table[1..][j].value) != value);
        assert table[k + 1] == r.value;
        r
      else
        r
  }

  /** In a table with distinct values, the lookup finds the one matching entry. */
  lemma {:induction false} FindCategoryUnique(table: seq<CategoryEntry>, e: CategoryEntry)
    requires DistinctValues(table) && e in table
    ensures FindCategory(table, CategoryValue(e.value)) == Some(e)
  {
    if table[0] != e {
      assert DistinctValues(table[1..]) by {
        forall i, j | 0 <= i < j < |table[1..]|
          ensures CategoryValue(table[1..][i].value) != CategoryValue(table[1..][j].value)
        {
          assert table[1..][i] == table[i + 1] && table[1..][j] == table[j + 1];
        }
      }
      var k :| 0 <= k < |table| && table[k] == e;
      assert CategoryValue(table[0].value) != CategoryValue(e.value);
      FindCategoryUnique(table[1..], e);
    }
  }

  /** A lookup in the label table yields the matching entry, if any. */
  lemma LabelLookupIsTable(category: string)
    ensures forall e :: e in MOVIE_CATEGORIES && CategoryValue(e.value) == category ==>
      FindCategory(MOVIE_CATEGORIES, category) == Some(e)
  {
    CategoryTableShape();
    forall e | e in MOVIE_CATEGORIES && CategoryValue(e.value) == category
      ensures FindCategory(MOVIE_CATEGORIES, category) == Some(e)
    {
      FindCategoryUnique(MOVIE_CATEGORIES, e);
    }
  }

  /**
   * The player's label: the table's label for a known category, otherwise
   * (also when the label is empty) the raw category string.
   */
  function PlayerCategoryLabel(category: string): (shown: string)
    ensures (forall e :: e in MOVIE_CATEGORIES ==> CategoryValue(e.value) != category) ==> shown == category
    ensures forall e :: e in MOVIE_CATEGORIES && CategoryValue(e.value) == category ==> shown == e.text
  {
    CategoryTableShape();
    LabelLookupIsTable(category);
    match FindCategory(MOVIE_CATEGORIES, category)
    case Some(e) => if e.text != "" then e.text else category
    case None => category
  }

  /** The admin list's label: `find(...)?.label`, nothing when no entry matches. */
  function AdminCategoryLabel(category: string): (shown: Option<string>)
    ensures shown.None? <==> forall e :: e in MOVIE_CATEGORIES ==> CategoryValue(e.value) != category
    ensures forall e :: e in MOVIE_CATEGORIES && CategoryValue(e.value) == category ==> shown == Some(e.text)
  {
    LabelLookupIsTable(category);
    match FindCategory(MOVIE_CATEGORIES, category)
    case Some(e) => Some(e.text)
    case None => None
  }

  /** The two enum members without a table entry fall back. */
  lemma UnlabelledCategoriesFallBack(c: MovieCategory)
    requires c == SciFi || c == Documentary
    ensures PlayerCategoryLabel(CategoryValue(c)) == CategoryValue(c)
    ensures AdminCategoryLabel(CategoryValue(c)).None?
  {
    CategoryTableShape();
    CategoryIsClosed();
    forall e | e in MOVIE_CATEGORIES ensures CategoryValue(e.value) != CategoryValue(c) {
      assert ParseCategory(CategoryValue(e.value)) == Some(e.value);
    }
  }
}
