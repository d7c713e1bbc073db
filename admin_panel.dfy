/**
 * The admin console: the add/edit form cycle over the catalogue hook, the
 * confirmed delete, sign-out, and the guard that renders nothing without a
 * signed-in user.
 */
module AdminPanel {
  import opened Wrappers
  import opened Types
  import opened Movies
  import Auth

  const SAVE_FAILED := "Erro ao salvar filme: "
  const DELETE_ALERT := "Erro ao deletar filme: "
  const SIGN_OUT_FAILED := "Erro ao fazer logout"

  /** The form as `resetForm` leaves it. */
  const EMPTY_FORM := MovieFields("", "", "", "", "action")

  /** `handleEdit`'s copy of a row into the form; a missing description becomes "". */
  function FormFromMovie(m: Movie): (f: MovieFields)
    ensures f.title == m.title && f.embed_code == m.embed_code
    ensures f.thumbnail_url == m.thumbnail_url && f.category == m.category
    ensures m.description.Some? ==> f.description == m.description.value
    ensures m.description.None? ==> f.description == ""
  {
    MovieFields(m.title, if m.description.Some? then m.description.value else "",
      m.embed_code, m.thumbnail_url, m.category)
  }

  /** Saving an unchanged edit form writes the row back as it was, up to a missing description. */
  lemma EditRoundTrip(m: Movie)
    requires m.description.Some?
    ensures ApplyFields(m, FormFromMovie(m)) == m
  {
  }

  /** What `addMovie(formData)` receives: the form's fields, no genre, tags, duration or embed URL. */
  function DraftFromForm(f: MovieFields): (d: NewMovie)
    ensures d.title == f.title && d.description == Some(f.description) && d.category == f.category
    ensures d.embed_code == f.embed_code && d.thumbnail_url == f.thumbnail_url
    ensures d.genre.None? && d.tags.None? && d.duration.None? && d.embed_url.None?
  {
    NewMovie(f.title, Some(f.description), f.embed_code, f.thumbnail_url, f.category, None, None, None, None)
  }

  /**
   * A row added through the console has no genre, so no genre-filtered
   * fetch returns it; the unfiltered fetch does.
   */
  lemma ConsoleRowsMissGenreFilter(rows: seq<Movie>, f: MovieFields, id: string, now: Timestamp, c: MovieCategory)
    ensures StoredRow(DraftFromForm(f), id, now) !in FetchQuery(rows + [StoredRow(DraftFromForm(f), id, now)], Some(c))
    ensures StoredRow(DraftFromForm(f), id, now) in FetchQuery(rows + [StoredRow(DraftFromForm(f), id, now)], None)
  {
    var row := StoredRow(DraftFromForm(f), id, now);
    FetchQueryCorrect(rows + [row], Some(c));
    FetchQueryCorrect(rows + [row], None);
  }

  datatype AdminView = AdminView(
    email: string,
    formHeading: Option<string>,
    movieCount: nat,
    loading: bool,
    categoryLabels: seq<Option<string>>)

  /** The console's state; `closeRequests` counts the calls of its `onClose` callback. */
  class Panel {
    const movies: MoviesHook
    var formData: MovieFields
    var editingMovie: Option<Movie>
    var showAddForm: bool
    var closeRequests: nat

    constructor (movies: MoviesHook)
      ensures this.movies == movies
      ensures formData == EMPTY_FORM && editingMovie.None? && !showAddForm && closeRequests == 0
    {
      this.movies := movies;
      formData := EMPTY_FORM;
      editingMovie := None;
      showAddForm := false;
      closeRequests := 0;
    }

    /** `resetForm`. */
    method ResetForm()
      modifies this
      ensures formData == EMPTY_FORM && !showAddForm && editingMovie.None?
      ensures closeRequests == old(closeRequests)
    {
      formData := EMPTY_FORM;
      showAddForm := false;
      editingMovie := None;
    }

    /** The "Adicionar Novo Filme" button: opens the form as it is. */
    method OpenAddForm()
      modifies this
      ensures showAddForm
      ensures formData == old(formData) && editingMovie == old(editingMovie) && closeRequests == old(closeRequests)
    {
      showAddForm := true;
    }

    /** `handleEdit`: loads the row into the form and opens it in edit mode. */
    method HandleEdit(m: Movie)
      modifies this
      ensures formData == FormFromMovie(m) && editingMovie == Some(m) && showAddForm
      ensures closeRequests == old(closeRequests)
    {
      formData := FormFromMovie(m);
      editingMovie := Some(m);
      showAddForm := true;
    }

    /**
     * `handleSubmit`: updates the edited row, or adds a new one, never both;
     * the form is reset only after a successful save, and kept with an alert
     * otherwise.
     */
    method HandleSubmit(newId: string, now: Timestamp, fault: Option<StoreError>) returns (alert: Option<string>)
      requires movies.store.Valid()
      modifies this, movies, movies.store
      ensures movies.store.Valid()
      ensures old(editingMovie).Some? ==> (
        && movies.store.rows == (if fault.None? then UpdateRows(old(movies.store.rows), old(editingMovie).value.id, old(formData))
                                 else old(movies.store.rows))
        && (alert.None? <==> fault.None? && HasId(old(movies.store.rows), old(editingMovie).value.id))
        && (alert.None? ==> forall m :: m in old(movies.store.rows) && m.id == old(editingMovie).value.id ==>
              movies.movies == ReplaceById(old(movies.movies), m.id, ApplyFields(m, old(formData)))))
      ensures old(editingMovie).None? ==> (
        && (alert.None? <==> fault.None? && !HasId(old(movies.store.rows), newId))
        && (alert.None? ==> (movies.store.rows == old(movies.store.rows) + [StoredRow(DraftFromForm(old(formData)), newId, now)]
              && movies.movies == [StoredRow(DraftFromForm(old(formData)), newId, now)] + old(movies.movies)))
        && (alert.Some? ==> movies.store.rows == old(movies.store.rows)))
      ensures alert.Some? ==> movies.movies == old(movies.movies)
      ensures fault.Some? ==> alert == Some(SAVE_FAILED + ThrownMessage(fault.value,
        if old(editingMovie).Some? then UPDATE_FAILED else ADD_FAILED))
      ensures fault.None? && alert.Some? && old(editingMovie).Some? ==>
        alert == Some(SAVE_FAILED + ThrownMessage(StoreError(NO_ROWS, NO_ROWS_MESSAGE, movies.store.errorInstances), UPDATE_FAILED))
      ensures fault.None? && alert.Some? && old(editingMovie).None? ==>
        alert == Some(SAVE_FAILED + ThrownMessage(StoreError(DUPLICATE_KEY, DUPLICATE_MESSAGE, movies.store.errorInstances), ADD_FAILED))
      ensures movies.loading == old(movies.loading) && movies.error == old(movies.error)
      ensures alert.None? ==> formData == EMPTY_FORM && !showAddForm && editingMovie.None?
      ensures alert.Some? ==> (formData == old(formData) && showAddForm == old(showAddForm)
        && editingMovie == old(editingMovie))
      ensures closeRequests == old(closeRequests)
    {
      var r: Result<Movie, string>;
      if editingMovie.Some? {
        r := movies.UpdateMovie(editingMovie.value.id, formData, fault);
      } else {
        r := movies.AddMovie(DraftFromForm(formData), newId, now, fault);
      }
      if r.Err? {
        return Some(SAVE_FAILED + r.error);
      }
      ResetForm();
      alert := None;
    }

    /** `handleDelete`: deletes only when the confirmation was accepted. */
    method HandleDelete(m: Movie, confirmed: bool, fault: Option<StoreError>) returns (alert: Option<string>)
      requires movies.store.Valid()
      modifies movies, movies.store
      ensures movies.store.Valid()
      ensures !confirmed ==> (alert.None? && movies.store.rows == old(movies.store.rows)
        && movies.movies == old(movies.movies))
      ensures confirmed && fault.None? ==> (alert.None?
        && movies.store.rows == SoftDeleteRows(old(movies.store.rows), m.id)
        && movies.movies == RemoveById(old(movies.movies), m.id))
      ensures confirmed && fault.Some? ==> (alert == Some(DELETE_ALERT + ThrownMessage(fault.value, DELETE_FAILED))
        && movies.store.rows == old(movies.store.rows) && movies.movies == old(movies.movies))
      ensures movies.loading == old(movies.loading) && movies.error == old(movies.error)
    {
      alert := None;
      if confirmed {
        var r := movies.DeleteMovie(m.id, fault);
        if r.Fail? {
          alert := Some(DELETE_ALERT + r.error);
        }
      }
    }

    /** `handleSignOut`: `onClose` is called only after sign-out succeeds. */
    method HandleSignOut(providerError: Option<Auth.AuthError>) returns (alert: Option<string>)
      modifies this
      ensures providerError.None? ==> alert.None? && closeRequests == old(closeRequests) + 1
      ensures providerError.Some? ==> alert == Some(SIGN_OUT_FAILED) && closeRequests == old(closeRequests)
      ensures formData == old(formData) && editingMovie == old(editingMovie) && showAddForm == old(showAddForm)
    {
      var r := Auth.SignOut(providerError);
      if r.Pass? {
        closeRequests := closeRequests + 1;
        alert := None;
      } else {
        alert := Some(SIGN_OUT_FAILED);
      }
    }

    /** The console, or nothing without a signed-in user. */
    function Render(user: Option<User>): (v: Option<AdminView>)
      reads this, movies
      ensures user.None? <==> v.None?
      ensures v.Some? ==> (v.value.formHeading.Some? <==> showAddForm)
      ensures v.Some? && showAddForm ==>
        v.value.formHeading == Some(if editingMovie.Some? then "Editar Filme" else "Adicionar Novo Filme")
      ensures v.Some? ==> |v.value.categoryLabels| == |movies.movies| == v.value.movieCount
      ensures v.Some? ==> forall i :: 0 <= i < |movies.movies| ==>
        v.value.categoryLabels[i] == AdminCategoryLabel(movies.movies[i].category)
    {
      if user.None? then None
      else Some(AdminView(
        user.value.email,
        if showAddForm then Some(if editingMovie.Some? then "Editar Filme" else "Adicionar Novo Filme") else None,
        |movies.movies|,
        movies.loading,
        seq(|movies.movies|, i requires 0 <= i < |movies.movies| reads movies => AdminCategoryLabel(movies.movies[i].category))))
    }
  }
}
