/**
 * AgregarEstudiante: the form that registers a student, then links the student to each chosen
 * career and club, collecting the links that fail.
 *
 * The HTTP calls are parameters, given as the outcome each one has, and `posts` lists the POSTs
 * made, in order. Whether `Date.parse` accepts the birth date is a parameter too. The selected
 * faculty is the number the select's value parses to, or `None` for the empty selection.
 */
module StudentForm {
  import opened Text

  datatype Form = Form(
    dni: string,
    nombres: string,
    apellidos: string,
    fechaNacimiento: string,
    telefono: string,
    email: string,
    foto: string,
    carreras: seq<int>,
    clubes: seq<int>)

  const EmptyForm: Form := Form("", "", "", "", "", "", "", [], [])

  datatype Career = Career(id: int, faculty: int, nombre: string)

  /** A link posted after the student: to a career or to a club. */
  datatype LinkKind = CareerLink | ClubLink

  datatype Post = StudentPost(dni: string) | LinkPost(kind: LinkKind, dni: string, id: int)

  /** How one link POST ends: it succeeds, or fails with the server's `error` text, if any. */
  datatype LinkOutcome = Linked | LinkFailed(serverError: Option<string>)

  /** How the student POST ends: the created student's `NOMBRES`, or a failure with the server's `error` text. */
  datatype StudentReply = Created(nombres: string) | CreateFailed(serverError: Option<string>)

  /** The file the input holds: its size in bytes and the data URL `FileReader` yields. */
  datatype FileInfo = FileInfo(size: nat, dataUrl: string)

  const PhotoLimit: nat := 2 * 1024 * 1024
  const RequiredMessage: string := "❌ Todos los campos obligatorios deben estar llenos."
  const DateMessage: string := "❌ Fecha de nacimiento inválida."
  const PhotoMessage: string := "❌ La foto no debe exceder 2MB."
  const LoadMessage: string := "❌ Error al cargar datos iniciales."

  /** One of the five required fields is empty (`TELEFONO` and `FOTO` are optional). */
  predicate MissingRequired(f: Form) {
    f.dni == "" || f.nombres == "" || f.apellidos == "" || f.email == "" || f.fechaNacimiento == ""
  }

  function Label(kind: LinkKind): string {
    match kind
    case CareerLink => "Carrera"
    case ClubLink => "Club"
  }

  /** The entry pushed for a failed link: the kind, the id and the server's text or 'Error desconocido'. */
  function LinkError(kind: LinkKind, id: int, serverError: Option<string>): string {
    Label(kind) + " ID " + IntToString(id) + ": " + OrElse(serverError, "Error desconocido")
  }

  /** The errors the loop over `ids` collects, given each POST's outcome, in order. */
  function LinkErrors(kind: LinkKind, ids: seq<int>, outcomes: seq<LinkOutcome>): seq<string>
    requires |ids| == |outcomes|
  {
    if ids == [] then []
    else
      var n := |ids| - 1;
      LinkErrors(kind, ids[..n], outcomes[..n])
        + (if outcomes[n].LinkFailed? then [LinkError(kind, ids[n], outcomes[n].serverError)] else [])
  }

  /** The POSTs the loop over `ids` makes: one per id, whatever the outcomes. */
  function LinkPosts(kind: LinkKind, dni: string, ids: seq<int>): (r: seq<Post>)
    ensures |r| == |ids|
  {
    if ids == [] then [] else LinkPosts(kind, dni, ids[..|ids| - 1]) + [LinkPost(kind, dni, ids[|ids| - 1])]
  }

  /** One more turn of the loop over links. */
  lemma LinkStep(kind: LinkKind, dni: string, ids: seq<int>, outcomes: seq<LinkOutcome>, i: nat)
    requires |ids| == |outcomes| && i < |ids|
    ensures LinkErrors(kind, ids[..i + 1], outcomes[..i + 1]) == LinkErrors(kind, ids[..i], outcomes[..i])
      + (if outcomes[i].LinkFailed? then [LinkError(kind, ids[i], outcomes[i].serverError)] else [])
    ensures LinkPosts(kind, dni, ids[..i + 1]) == LinkPosts(kind, dni, ids[..i]) + [LinkPost(kind, dni, ids[i])]
  {
    assert ids[..i + 1][..i] == ids[..i] && outcomes[..i + 1][..i] == outcomes[..i];
  }

  /** The message after the student was created. */
  function FinalMessage(nombres: string, careerErrors: seq<string>, clubErrors: seq<string>): string {
    if |careerErrors| > 0 || |clubErrors| > 0
    then "✅ " + nombres + " registrado, pero hubo errores: " + Join(careerErrors + clubErrors, "; ")
    else "✅ " + nombres + " registrado correctamente."
  }

  /** The test of the filter: the career belongs to the faculty (`c.ID_FACULTAD === parseInt(...)`). */
  function OfFaculty(id: int): Career -> bool {
    (c: Career) => c.faculty == id
  }

  /** The careers of the selected faculty; none without a selection. */
  function CareersOf(all: seq<Career>, faculty: Option<int>): (r: seq<Career>)
    ensures faculty.None? ==> r == []
    ensures faculty.Some? ==> forall c :: c in r <==> c in all && c.faculty == faculty.value
  {
    if faculty.None? then [] else Filter(all, OfFaculty(faculty.value))
  }

  datatype Page = Page(
    form: Form,
    message: string,
    faculty: Option<int>,
    careers: seq<Career>,
    filtered: seq<Career>,
    posts: seq<Post>)

  const Initial: Page := Page(EmptyForm, "", None, [], [], [])

  /** The effect on `[facultadSeleccionada, todasCarreras]`: refilter, and drop the chosen careers. */
  function FacultyEffect(p: Page): (r: Page)
    ensures r.form.carreras == [] && r.posts == p.posts
  {
    p.(filtered := CareersOf(p.careers, p.faculty), form := p.form.(carreras := []))
  }

  /** Choosing a faculty; the effect runs only when the value changes. */
  function SelectFaculty(p: Page, faculty: Option<int>): Page {
    if faculty == p.faculty then p else FacultyEffect(p.(faculty := faculty))
  }

  /** The reference data arriving (`None` when one of the three GETs failed). */
  function ReferenceLoaded(p: Page, careers: Option<seq<Career>>): Page {
    match careers
    case None => p.(message := LoadMessage)
    case Some(all) => FacultyEffect(p.(careers := all))
  }

  /** `handleFileChange`: a file over 2 MiB is refused with a message, anything else becomes `FOTO`. */
  function PhotoChosen(p: Page, file: Option<FileInfo>): Page {
    match file
    case None => p
    case Some(f) => if f.size > PhotoLimit then p.(message := PhotoMessage) else p.(form := p.form.(foto := f.dataUrl))
  }

  /** `handleSubmit`, given how each POST ends. */
  function Submitted(p: Page, dateValid: bool, student: StudentReply,
                     careerOutcomes: seq<LinkOutcome>, clubOutcomes: seq<LinkOutcome>): Page
    requires |careerOutcomes| == |p.form.carreras| && |clubOutcomes| == |p.form.clubes|
  {
    var f := p.form;
    if MissingRequired(f) then p.(message := RequiredMessage)
    else if !dateValid then p.(message := DateMessage)
    else
      var posted := p.(posts := p.posts + [StudentPost(f.dni)]);
      match student
      case CreateFailed(serverError) =>
        posted.(message := "❌ Error al registrar: " + OrElse(serverError, "Intente de nuevo"))
      case Created(nombres) =>
        var linked := posted.(posts := posted.posts + LinkPosts(CareerLink, f.dni, f.carreras)
                                                     + LinkPosts(ClubLink, f.dni, f.clubes));
        var told := linked.(message := FinalMessage(nombres, LinkErrors(CareerLink, f.carreras, careerOutcomes),
                                                    LinkErrors(ClubLink, f.clubes, clubOutcomes)));
        SelectFaculty(told.(form := EmptyForm), None)
  }

  /** The page's invariant: the shown careers are those of the selected faculty. */
  predicate Filtered(p: Page) {
    p.filtered == CareersOf(p.careers, p.faculty)
  }

  /** The shown careers are exactly the selected faculty's, every copy, in the list's order. */
  lemma {:induction false} CareersOfExactly(all: seq<Career>, faculty: Option<int>, c: Career)
    ensures var r := CareersOf(all, faculty);
      (c in r <==> faculty.Some? && c in all && c.faculty == faculty.value)
      && IsSubsequence(r, all)
      && multiset(r)[c] == (if faculty.Some? && c.faculty == faculty.value then multiset(all)[c] else 0)
  {
    if faculty.Some? {
      FilterKeepsOrder(all, OfFaculty(faculty.value));
      FilterCounts(all, OfFaculty(faculty.value), c);
    } else {
      EmptySubsequence(all);
    }
  }

  lemma InitialFiltered()
    ensures Filtered(Initial)
  {
  }

  lemma SelectFacultyFiltered(p: Page, faculty: Option<int>)
    requires Filtered(p)
    ensures Filtered(SelectFaculty(p, faculty))
    ensures SelectFaculty(p, faculty).faculty == faculty
  {
  }

  lemma ReferenceLoadedFiltered(p: Page, careers: Option<seq<Career>>)
    requires Filtered(p)
    ensures Filtered(ReferenceLoaded(p, careers))
  {
  }

  lemma PhotoChosenFiltered(p: Page, file: Option<FileInfo>)
    requires Filtered(p)
    ensures Filtered(PhotoChosen(p, file))
  {
  }

  lemma SubmittedFiltered(p: Page, dateValid: bool, student: StudentReply,
                          careerOutcomes: seq<LinkOutcome>, clubOutcomes: seq<LinkOutcome>)
    requires Filtered(p)
    requires |careerOutcomes| == |p.form.carreras| && |clubOutcomes| == |p.form.clubes|
    ensures Filtered(Submitted(p, dateValid, student, careerOutcomes, clubOutcomes))
  {
  }

  /** A change of faculty, or a new career list, drops the chosen careers. */
  lemma ChangeDropsCareers(p: Page, faculty: Option<int>, careers: seq<Career>)
    ensures faculty != p.faculty ==> SelectFaculty(p, faculty).form.carreras == []
    ensures ReferenceLoaded(p, Some(careers)).form.carreras == []
  {
  }

  /** A photo over 2 MiB is refused and `FOTO` is kept; a photo of exactly 2 MiB is taken. */
  lemma PhotoLimitExact(p: Page, file: Option<FileInfo>)
    ensures file.None? ==> PhotoChosen(p, file) == p
    ensures file.Some? && file.value.size > PhotoLimit ==>
      var r := PhotoChosen(p, file);
      r.form == p.form && r.message == PhotoMessage
      && r.faculty == p.faculty && r.careers == p.careers && r.filtered == p.filtered && r.posts == p.posts
    ensures file.Some? && file.value.size <= PhotoLimit ==>
      var r := PhotoChosen(p, file);
      r.form == p.form.(foto := file.value.dataUrl) && r.message == p.message
      && r.faculty == p.faculty && r.careers == p.careers && r.filtered == p.filtered && r.posts == p.posts
  {
  }

  /** A missing required field or a bad date rejects the submit before any POST, keeping the form. */
  lemma RejectedWithoutPost(p: Page, dateValid: bool, student: StudentReply,
                            careerOutcomes: seq<LinkOutcome>, clubOutcomes: seq<LinkOutcome>)
    requires |careerOutcomes| == |p.form.carreras| && |clubOutcomes| == |p.form.clubes|
    requires MissingRequired(p.form) || !dateValid
    ensures var r := Submitted(p, dateValid, student, careerOutcomes, clubOutcomes);
      r.posts == p.posts && r.form == p.form && r.faculty == p.faculty
      && r.message == (if MissingRequired(p.form) then RequiredMessage else DateMessage)
  {
  }

  /** A failed student POST posts no link and keeps the form and the faculty. */
  lemma FailureKeepsForm(p: Page, serverError: Option<string>,
                         careerOutcomes: seq<LinkOutcome>, clubOutcomes: seq<LinkOutcome>)
    requires |careerOutcomes| == |p.form.carreras| && |clubOutcomes| == |p.form.clubes|
    requires !MissingRequired(p.form)
    ensures var r := Submitted(p, true, CreateFailed(serverError), careerOutcomes, clubOutcomes);
      r.posts == p.posts + [StudentPost(p.form.dni)] && r.form == p.form && r.faculty == p.faculty
      && r.message == "❌ Error al registrar: " + OrElse(serverError, "Intente de nuevo")
  {
  }

  /**
   * After the student is created, the career links and then the club links are posted, one per id
   * and whichever of them fail; the form and the faculty are reset.
   */
  lemma CreatedPostsEveryLink(p: Page, nombres: string,
                              careerOutcomes: seq<LinkOutcome>, clubOutcomes: seq<LinkOutcome>)
    requires |careerOutcomes| == |p.form.carreras| && |clubOutcomes| == |p.form.clubes|
    requires !MissingRequired(p.form) && Filtered(p)
    ensures var r := Submitted(p, true, Created(nombres), careerOutcomes, clubOutcomes);
      r.posts == p.posts + [StudentPost(p.form.dni)] + LinkPosts(CareerLink, p.form.dni, p.form.carreras)
                 + LinkPosts(ClubLink, p.form.dni, p.form.clubes)
      && r.form == EmptyForm && r.faculty == None && r.filtered == []
  {
  }

  /** The link POSTs go out one per id, in the order of the ids. */
  lemma {:induction false} LinkPostsAt(kind: LinkKind, dni: string, ids: seq<int>)
    ensures forall i :: 0 <= i < |ids| ==> LinkPosts(kind, dni, ids)[i] == LinkPost(kind, dni, ids[i])
  {
    if ids != [] {
      LinkPostsAt(kind, dni, ids[..|ids| - 1]);
    }
  }

  /** No error is collected exactly when every link succeeded. */
  lemma {:induction false} LinkErrorsEmpty(kind: LinkKind, ids: seq<int>, outcomes: seq<LinkOutcome>)
    requires |ids| == |outcomes|
    ensures LinkErrors(kind, ids, outcomes) == [] <==> forall i :: 0 <= i < |outcomes| ==> outcomes[i].Linked?
  {
    if ids != [] {
      var n := |ids| - 1;
      LinkErrorsEmpty(kind, ids[..n], outcomes[..n]);
      if outcomes[n].Linked? {
        assert forall i :: 0 <= i < n ==> outcomes[..n][i] == outcomes[i];
      }
    }
  }

  /** Entry `e` is the one the failed link at `i` leaves. */
  predicate FailureEntry(kind: LinkKind, ids: seq<int>, outcomes: seq<LinkOutcome>, i: int, e: string) {
    0 <= i < |ids| && i < |outcomes| && outcomes[i].LinkFailed? && e == LinkError(kind, ids[i], outcomes[i].serverError)
  }

  /** Every entry comes from a failed link. */
  lemma {:induction false} LinkErrorsOnlyFailures(kind: LinkKind, ids: seq<int>, outcomes: seq<LinkOutcome>, e: string)
    requires |ids| == |outcomes| && e in LinkErrors(kind, ids, outcomes)
    ensures exists i :: FailureEntry(kind, ids, outcomes, i, e)
  {
    var n := |ids| - 1;
    if e in LinkErrors(kind, ids[..n], outcomes[..n]) {
      LinkErrorsOnlyFailures(kind, ids[..n], outcomes[..n], e);
      var i :| FailureEntry(kind, ids[..n], outcomes[..n], i, e);
      assert FailureEntry(kind, ids, outcomes, i, e);
    } else {
      assert FailureEntry(kind, ids, outcomes, n, e);
    }
  }

  /** Each failed link leaves its entry. */
  lemma {:induction false} LinkErrorsKeepFailures(kind: LinkKind, ids: seq<int>, outcomes: seq<LinkOutcome>, i: int)
    requires |ids| == |outcomes| && 0 <= i < |ids| && outcomes[i].LinkFailed?
    ensures LinkError(kind, ids[i], outcomes[i].serverError) in LinkErrors(kind, ids, outcomes)
  {
    var n := |ids| - 1;
    if i < n {
      LinkErrorsKeepFailures(kind, ids[..n], outcomes[..n], i);
      assert ids[..n][i] == ids[i] && outcomes[..n][i] == outcomes[i];
    }
  }

  /** So the entries are exactly those of the failed links. */
  lemma LinkErrorsRecordFailures(kind: LinkKind, ids: seq<int>, outcomes: seq<LinkOutcome>, e: string)
    requires |ids| == |outcomes|
    ensures e in LinkErrors(kind, ids, outcomes) <==> exists i :: FailureEntry(kind, ids, outcomes, i, e)
  {
    if e in LinkErrors(kind, ids, outcomes) {
      LinkErrorsOnlyFailures(kind, ids, outcomes, e);
    }
    if exists i :: FailureEntry(kind, ids, outcomes, i, e) {
      var i :| FailureEntry(kind, ids, outcomes, i, e);
      LinkErrorsKeepFailures(kind, ids, outcomes, i);
    }
  }

  /** The plain success text appears exactly when no link failed; otherwise career errors come before club errors. */
  lemma CreatedMessage(p: Page, nombres: string, careerOutcomes: seq<LinkOutcome>, clubOutcomes: seq<LinkOutcome>)
    requires |careerOutcomes| == |p.form.carreras| && |clubOutcomes| == |p.form.clubes|
    requires !MissingRequired(p.form)
    ensures var r := Submitted(p, true, Created(nombres), careerOutcomes, clubOutcomes);
      var careerErrors := LinkErrors(CareerLink, p.form.carreras, careerOutcomes);
      var clubErrors := LinkErrors(ClubLink, p.form.clubes, clubOutcomes);
      if (forall i :: 0 <= i < |careerOutcomes| ==> careerOutcomes[i].Linked?)
         && (forall i :: 0 <= i < |clubOutcomes| ==> clubOutcomes[i].Linked?)
      then r.message == "✅ " + nombres + " registrado correctamente."
      else r.message == "✅ " + nombres + " registrado, pero hubo errores: " + Join(careerErrors + clubErrors, "; ")
  {
    LinkErrorsEmpty(CareerLink, p.form.carreras, careerOutcomes);
    LinkErrorsEmpty(ClubLink, p.form.clubes, clubOutcomes);
  }

  /** The form page: its state as fields, each handler a method. */
  class FormPage {
    var form: Form
    var message: string
    var faculty: Option<int>
    var careers: seq<Career>
    var filtered: seq<Career>
    var posts: seq<Post>

    function Snapshot(): Page
      reads this
    {
      Page(form, message, faculty, careers, filtered, posts)
    }

    constructor()
      ensures Snapshot() == Initial
    {
      form, message, faculty := EmptyForm, "", None;
      careers, filtered, posts := [], [], [];
    }

    /** The effect on the faculty and the career list. */
    method RunFacultyEffect()
      modifies this
      ensures Snapshot() == FacultyEffect(old(Snapshot()))
    {
      if faculty.Some? {
        var id := faculty.value;
        filtered := Filter(careers, OfFaculty(id));
      } else {
        filtered := [];
      }
      form := form.(carreras := []);
    }

    method OnFacultyChange(f: Option<int>)
      modifies this
      ensures Snapshot() == SelectFaculty(old(Snapshot()), f)
    {
      if f != faculty {
        faculty := f;
        RunFacultyEffect();
      }
    }

    method OnReferenceData(loaded: Option<seq<Career>>)
      modifies this
      ensures Snapshot() == ReferenceLoaded(old(Snapshot()), loaded)
    {
      if loaded.None? {
        message := LoadMessage;
        return;
      }
      careers := loaded.value;
      RunFacultyEffect();
    }

    method OnFileChange(file: Option<FileInfo>)
      modifies this
      ensures Snapshot() == PhotoChosen(old(Snapshot()), file)
    {
      if file.None? {
        return;
      }
      if file.value.size > PhotoLimit {
        message := PhotoMessage;
        return;
      }
      form := form.(foto := file.value.dataUrl);
    }

    /** The loop over one list of links: post each, collect the failures. */
    method PostLinks(kind: LinkKind, dni: string, ids: seq<int>, outcomes: seq<LinkOutcome>) returns (errors: seq<string>)
      requires |ids| == |outcomes|
      modifies this
      ensures errors == LinkErrors(kind, ids, outcomes)
      ensures Snapshot() == old(Snapshot()).(posts := old(posts) + LinkPosts(kind, dni, ids))
    {
      errors := [];
      var i := 0;
      while i < |ids|
        invariant 0 <= i <= |ids|
        invariant errors == LinkErrors(kind, ids[..i], outcomes[..i])
        invariant Snapshot() == old(Snapshot()).(posts := old(posts) + LinkPosts(kind, dni, ids[..i]))
      {
        posts := posts + [LinkPost(kind, dni, ids[i])];
        if outcomes[i].LinkFailed? {
          errors := errors + [LinkError(kind, ids[i], outcomes[i].serverError)];
        }
        LinkStep(kind, dni, ids, outcomes, i);
        i := i + 1;
      }
      assert ids[..i] == ids && outcomes[..i] == outcomes;
    }

    method Submit(dateValid: bool, student: StudentReply, careerOutcomes: seq<LinkOutcome>, clubOutcomes: seq<LinkOutcome>)
      requires |careerOutcomes| == |form.carreras| && |clubOutcomes| == |form.clubes|
      modifies this
      ensures Snapshot() == Submitted(old(Snapshot()), dateValid, student, careerOutcomes, clubOutcomes)
    {
      if MissingRequired(form) {
        message := RequiredMessage;
        return;
      }
      if !dateValid {
        message := DateMessage;
        return;
      }
      var f := form;
      posts := posts + [StudentPost(f.dni)];
      if student.CreateFailed? {
        message := "❌ Error al registrar: " + OrElse(student.serverError, "Intente de nuevo");
        return;
      }
      var careerErrors := PostLinks(CareerLink, f.dni, f.carreras, careerOutcomes);
      var clubErrors := PostLinks(ClubLink, f.dni, f.clubes, clubOutcomes);
      message := FinalMessage(student.nombres, careerErrors, clubErrors);
      form := EmptyForm;
      OnFacultyChange(None);
    }
  }
}
