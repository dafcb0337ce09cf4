/** The user administration page (app/admin/usuarios/page.tsx): the search
    filter, the pages of ten users, the guarded page navigation, the create
    and edit schemas, and the handlers that update the list by id. The
    backend's answers are inputs; each handler returns the request it sends. */
module UserAdmin {
  import opened Wrappers
  import opened Text
  import opened Records

  datatype User = User(id: int, nome: string, email: string, senha: Option<string>, role: string)

  function UserId(u: User): int
  {
    u.id
  }

  const PageSize: nat := 10

  const LoadError: string := "Falha ao carregar usu\U{00E1}rios. Por favor, tente novamente."
  const DeleteError: string := "Falha ao excluir usu\U{00E1}rio. Por favor, tente novamente."
  const CreateError: string := "Falha ao cadastrar usu\U{00E1}rio. Por favor, tente novamente."
  const UpdateError: string := "Falha ao atualizar usu\U{00E1}rio. Por favor, tente novamente."

  // Search

  /** The user's name or e-mail contains the query, ignoring case. */
  predicate Matches(u: User, query: string)
  {
    Includes(ToLower(u.nome), ToLower(query)) || Includes(ToLower(u.email), ToLower(query))
  }

  /** `filteredUsers`: the users that match, in their original order. */
  function Filtered(users: seq<User>, query: string): (r: seq<User>)
    ensures |r| <= |users|
    ensures forall u :: u in r <==> u in users && Matches(u, query)
  {
    if users == [] then []
    else if Matches(users[0], query) then [users[0]] + Filtered(users[1..], query)
    else Filtered(users[1..], query)
  }

  /** Filtering works piece by piece, so the kept users keep their order. */
  lemma {:induction false} FilteredAppend(a: seq<User>, b: seq<User>, query: string)
    ensures Filtered(a + b, query) == Filtered(a, query) + Filtered(b, query)
  {
    if a == [] {
      assert a + b == b;
    } else {
      assert (a + b)[1..] == a[1..] + b;
      FilteredAppend(a[1..], b, query);
    }
  }

  /** Every text contains the empty text. */
  lemma IncludesEmpty(s: string)
    ensures Includes(s, "")
  {
    assert s[..0] == "";
  }

  /** The empty query keeps every user. */
  lemma {:induction false} EmptyQueryKeepsAll(users: seq<User>)
    ensures Filtered(users, "") == users
  {
    if users != [] {
      IncludesEmpty(ToLower(users[0].nome));
      EmptyQueryKeepsAll(users[1..]);
    }
  }

  /** Lowering twice is lowering once. */
  lemma ToLowerIdempotent(s: string)
    ensures ToLower(ToLower(s)) == ToLower(s)
  {
  }

  /** The query's case does not matter. */
  lemma {:induction false} QueryCaseIgnored(users: seq<User>, query: string)
    ensures Filtered(users, query) == Filtered(users, ToLower(query))
  {
    ToLowerIdempotent(query);
    if users != [] {
      QueryCaseIgnored(users[1..], query);
    }
  }

  // Pages

  /** `Math.ceil(n / itemsPerPage)`: the fewest pages of ten that hold `n`. */
  function TotalPages(n: nat): (t: nat)
    ensures t * PageSize >= n
    ensures t == 0 || (t - 1) * PageSize < n
  {
    (n + PageSize - 1) / PageSize
  }

  /** `startIndex` of a page, counted from 1. */
  function StartIndex(page: nat): nat
    requires page >= 1
  {
    (page - 1) * PageSize
  }

  /** `endIndex`: ten further, or the end of the list. */
  function EndIndex(page: nat, n: nat): (e: nat)
    requires page >= 1
    ensures e <= n && e <= StartIndex(page) + PageSize
    ensures e == n || e == StartIndex(page) + PageSize
  {
    if StartIndex(page) + PageSize < n then StartIndex(page) + PageSize else n
  }

  /** `currentUsers`, `filtered.slice(startIndex, endIndex)`: at most ten
      consecutive users from the start index on, none when the start index is
      at or past the end. */
  function Page<T>(f: seq<T>, page: nat): (r: seq<T>)
    requires page >= 1
    ensures |r| <= PageSize
    ensures r == [] <==> StartIndex(page) >= |f|
    ensures StartIndex(page) < |f| ==>
      |r| == EndIndex(page, |f|) - StartIndex(page) &&
      forall i :: 0 <= i < |r| ==> r[i] == f[StartIndex(page) + i]
  {
    if StartIndex(page) >= |f| then [] else f[StartIndex(page)..EndIndex(page, |f|)]
  }

  /** Pages 1 to `k`, one after the other. */
  function PagesUpTo<T>(f: seq<T>, k: nat): seq<T>
  {
    if k == 0 then [] else PagesUpTo(f, k - 1) + Page(f, k)
  }

  /** How many users the first `k` pages can hold, capped at the list's length. */
  function Covered(k: nat, n: nat): (c: nat)
    ensures c <= n
  {
    if k * PageSize < n then k * PageSize else n
  }

  /** Page `k` is the slice between what the first `k - 1` pages and the
      first `k` pages cover. */
  lemma PageSlice<T>(f: seq<T>, k: nat)
    requires k >= 1
    ensures Covered(k - 1, |f|) <= Covered(k, |f|)
    ensures Page(f, k) == f[Covered(k - 1, |f|)..Covered(k, |f|)]
  {
    assert k * PageSize == StartIndex(k) + PageSize;
  }

  /** A prefix followed by the slice after it is the longer prefix. */
  lemma SliceJoin<T>(f: seq<T>, a: nat, b: nat)
    requires a <= b <= |f|
    ensures f[..a] + f[a..b] == f[..b]
  {
    assert forall i :: 0 <= i < b ==> (f[..a] + f[a..b])[i] == f[i];
  }

  /** The first `k` pages are the first `10 k` users. */
  lemma {:induction false} PagesUpToPrefix<T>(f: seq<T>, k: nat)
    ensures PagesUpTo(f, k) == f[..Covered(k, |f|)]
  {
    if k > 0 {
      PagesUpToPrefix(f, k - 1);
      PageSlice(f, k);
      SliceJoin(f, Covered(k - 1, |f|), Covered(k, |f|));
    }
  }

  /** The pages partition the filtered list: read in order they give it back
      whole, each user exactly once. */
  lemma PagesPartition<T>(f: seq<T>)
    ensures PagesUpTo(f, TotalPages(|f|)) == f
  {
    PagesUpToPrefix(f, TotalPages(|f|));
    assert f[..|f|] == f;
  }

  /** Every page from 1 to the last one is non-empty, and the pages after the
      last one are empty. */
  lemma PagesInRange<T>(f: seq<T>, page: nat)
    requires page >= 1
    ensures Page(f, page) != [] <==> page <= TotalPages(|f|)
  {
  }

  /** The "Mostrando a-b de n" label: its first number, 0 for an empty list. */
  function RangeStart(page: nat, n: nat): nat
    requires page >= 1
  {
    if n > 0 then StartIndex(page) + 1 else 0
  }

  /** On a page in range the label counts exactly the users shown. On a page
      past the last one (possible after deleting the last user of the last
      page, since nothing moves the page back) the label reads "11-10 de 10"
      and nothing is listed. */
  lemma RangeLabel<T>(f: seq<T>, page: nat)
    requires page >= 1
    ensures 1 <= page <= TotalPages(|f|) ==> EndIndex(page, |f|) - RangeStart(page, |f|) + 1 == |Page(f, page)|
    ensures |f| == 10 && page == 2 ==> RangeStart(page, |f|) == 11 && EndIndex(page, |f|) == 10 && Page(f, page) == []
  {
  }

  // Schemas

  /** The values of the create and edit forms; the select leaves `role`
      unset only when no default was given. */
  datatype UserValues = UserValues(nome: string, email: string, senha: Option<string>, role: Option<string>)

  datatype UserField = Nome | Email | Senha | Role

  const NomeShort: string := "Nome deve ter pelo menos 2 caracteres."
  const EmailInvalid: string := "Email inv\U{00E1}lido."
  const SenhaShort: string := "Senha deve ter pelo menos 6 caracteres."
  const RoleRequired: string := "Selecione uma fun\U{00E7}\U{00E3}o."

  /** zod's own message for a value outside the enum. */
  function RoleUnknown(r: string): string
  {
    "Invalid enum value. Expected 'ADMIN' | 'USER', received '" + r + "'"
  }

  predicate KnownRole(r: string)
  {
    r == "ADMIN" || r == "USER"
  }

  /** The role rule shared by both forms. */
  function RoleCheck(role: Option<string>): (r: Option<string>)
    ensures r.None? <==> role.Some? && KnownRole(role.value)
    ensures role.None? ==> r == Some(RoleRequired)
    ensures role.Some? && !KnownRole(role.value) ==> r == Some(RoleUnknown(role.value))
  {
    if role.None? then Some(RoleRequired)
    else if KnownRole(role.value) then None
    else Some(RoleUnknown(role.value))
  }

  const AllUserFields: set<UserField> := {Nome, Email, Senha, Role}

  /** The rule of one field of `userSchema`. */
  function UserFieldCheck(v: UserValues, isEmail: string -> bool, f: UserField): Option<string>
  {
    match f
    case Nome => if |v.nome| < 2 then Some(NomeShort) else None
    case Email => if !isEmail(v.email) then Some(EmailInvalid) else None
    case Senha => if v.senha.Some? && |v.senha.value| < 6 then Some(SenhaShort) else None
    case Role => RoleCheck(v.role)
  }

  /** `userSchema`, with zod's `.email()` rule given as `isEmail`. */
  function CreateErrors(v: UserValues, isEmail: string -> bool): (r: map<UserField, string>)
    ensures Nome in r <==> |v.nome| < 2
    ensures Email in r <==> !isEmail(v.email)
    ensures Senha in r <==> v.senha.Some? && |v.senha.value| < 6
    ensures Role in r <==> v.role.None? || !KnownRole(v.role.value)
    ensures Nome in r ==> r[Nome] == NomeShort
    ensures Email in r ==> r[Email] == EmailInvalid
    ensures Senha in r ==> r[Senha] == SenhaShort
    ensures v.role.None? ==> r[Role] == RoleRequired
    ensures v.role.Some? && !KnownRole(v.role.value) ==> r[Role] == RoleUnknown(v.role.value)
  {
    map f | f in AllUserFields && UserFieldCheck(v, isEmail, f).Some? :: UserFieldCheck(v, isEmail, f).value
  }

  /** The edit schema: the same rules, except that an empty password passes. */
  function EditErrors(v: UserValues, isEmail: string -> bool): (r: map<UserField, string>)
    ensures Senha in r <==> v.senha.Some? && v.senha.value != "" && |v.senha.value| < 6
    ensures forall f :: f != Senha ==> (f in r <==> f in CreateErrors(v, isEmail))
    ensures forall f :: f in r ==> r[f] == (if f == Senha then SenhaShort else CreateErrors(v, isEmail)[f])
  {
    var c := CreateErrors(v, isEmail);
    if v.senha.Some? && v.senha.value == "" then c - {Senha} else c
  }

  /** The create form's defaults. */
  const CreateDefaults: UserValues := UserValues("", "", Some(""), Some("USER"))

  /** Everything the create form accepts the edit form accepts too; the
      converse fails on the empty password, which the create form refuses
      even though it is its own default. */
  lemma EditAcceptsMore(v: UserValues, isEmail: string -> bool)
    ensures CreateErrors(v, isEmail) == map[] ==> EditErrors(v, isEmail) == map[]
    ensures Senha in CreateErrors(CreateDefaults, isEmail) && Senha !in EditErrors(CreateDefaults, isEmail)
  {
    if CreateErrors(v, isEmail) == map[] {
      assert forall f :: f !in EditErrors(v, isEmail);
    }
  }

  /** The edit data the backend receives: an empty or absent password is
      dropped, everything else is sent as typed. */
  function EditPayload(v: UserValues): (r: UserValues)
    ensures r.nome == v.nome && r.email == v.email && r.role == v.role
    ensures r.senha.Some? <==> v.senha.Some? && v.senha.value != ""
    ensures r.senha.Some? ==> r.senha == v.senha
  {
    if v.senha.None? || v.senha.value == "" then v.(senha := None) else v
  }

  /** Dropping the empty password changes nothing the edit schema sees:
      the payload gets exactly the typed values' errors, and these are also
      the full create schema's errors of the payload, so what the backend
      receives always has a password of six characters or none. */
  lemma PayloadKeepsVerdict(v: UserValues, isEmail: string -> bool)
    ensures EditErrors(EditPayload(v), isEmail) == EditErrors(v, isEmail)
    ensures CreateErrors(EditPayload(v), isEmail) == EditErrors(v, isEmail)
  {
  }

  /** What the edit dialog starts with: the user's name, e-mail and role,
      and no password. */
  function EditDefaults(u: User): (v: UserValues)
    ensures v.senha.None? && v.role == Some(u.role)
  {
    UserValues(u.nome, u.email, None, Some(u.role))
  }

  /** The requests the page sends. */
  datatype UserRequest =
    | Register(body: UserValues)
    | Update(path: string, body: UserValues)
    | Remove(path: string)

  function UserPath(id: int): string
  {
    "/users/" + IntText(id)
  }

  /** Everything the page holds, as one value. */
  datatype PageState = PageState(
    users: seq<User>, deleteId: Option<int>, isDeleteDialogOpen: bool,
    isCreateModalOpen: bool, isEditModalOpen: bool,
    selectedUser: Option<User>, editValues: Option<UserValues>,
    isSubmitting: bool, isLoading: bool, error: Option<string>,
    currentPage: nat, searchQuery: string)

  /** The page's state. */
  class UsersPage {
    var users: seq<User>
    var deleteId: Option<int>
    var isDeleteDialogOpen: bool
    var isCreateModalOpen: bool
    var isEditModalOpen: bool
    var selectedUser: Option<User>
    var editValues: Option<UserValues>
    var isSubmitting: bool
    var isLoading: bool
    var error: Option<string>
    var currentPage: nat
    var searchQuery: string

    function State(): PageState
      reads this
    {
      PageState(users, deleteId, isDeleteDialogOpen, isCreateModalOpen, isEditModalOpen,
                selectedUser, editValues, isSubmitting, isLoading, error, currentPage, searchQuery)
    }

    /** Pages are counted from 1. */
    predicate Valid()
      reads this
    {
      currentPage >= 1
    }

    function FilteredUsers(): seq<User>
      reads this
    {
      Filtered(users, searchQuery)
    }

    function PageCount(): nat
      reads this
    {
      TotalPages(|FilteredUsers()|)
    }

    function CurrentUsers(): seq<User>
      reads this
      requires Valid()
    {
      Page(FilteredUsers(), currentPage)
    }

    constructor ()
      ensures Valid()
      ensures State() == PageState([], None, false, false, false, None, None, false, true, None, 1, "")
    {
      users := [];
      deleteId := None;
      isDeleteDialogOpen := false;
      isCreateModalOpen := false;
      isEditModalOpen := false;
      selectedUser := None;
      editValues := None;
      isSubmitting := false;
      isLoading := true;
      error := None;
      currentPage := 1;
      searchQuery := "";
    }

    /** `fetchUsers`, given the backend's answer: the list and no error on
      success, the old list and the load message on failure, and loading
      over; nothing else changes. */
    method FetchUsers(reply: Reply<seq<User>>)
      requires Valid()
      modifies this
      ensures Valid()
      ensures reply.Ok? ==> State() == old(State()).(users := reply.data, error := None, isLoading := false)
      ensures reply.Failed? ==> State() == old(State()).(error := Some(LoadError), isLoading := false)
    {
      isLoading := true;
      match reply {
        case Ok(data) =>
          users := data;
          error := None;
        case Failed(_) =>
          error := Some(LoadError);
      }
      isLoading := false;
    }

    /** `goToPage`: only pages 1 to the last one are reachable. */
    method GoToPage(page: int)
      requires Valid()
      modifies this
      ensures Valid()
      ensures 1 <= page <= old(PageCount()) ==> State() == old(State()).(currentPage := page)
      ensures !(1 <= page <= old(PageCount())) ==> State() == old(State())
    {
      if page >= 1 && page <= PageCount() {
        currentPage := page;
      }
    }

    /** `nextPage`: one on, unless on the last page or past it. */
    method NextPage()
      requires Valid()
      modifies this
      ensures Valid()
      ensures old(currentPage) < old(PageCount()) ==> State() == old(State()).(currentPage := old(currentPage) + 1)
      ensures old(currentPage) >= old(PageCount()) ==> State() == old(State())
      ensures currentPage <= old(currentPage) || currentPage <= PageCount()
    {
      if currentPage < PageCount() {
        currentPage := currentPage + 1;
      }
    }

    /** `prevPage`: one back, never below 1. */
    method PrevPage()
      requires Valid()
      modifies this
      ensures Valid()
      ensures old(currentPage) > 1 ==> State() == old(State()).(currentPage := old(currentPage) - 1)
      ensures old(currentPage) <= 1 ==> State() == old(State())
    {
      if currentPage > 1 {
        currentPage := currentPage - 1;
      }
    }

    /** Typing in the search box (or clearing it with its button): the new
      query, and the page back to 1. */
    method SetSearchQuery(query: string)
      requires Valid()
      modifies this
      ensures Valid()
      ensures State() == old(State()).(searchQuery := query, currentPage := 1)
      ensures FilteredUsers() == Filtered(old(users), query)
    {
      searchQuery := query;
      currentPage := 1;
    }

    /** `handleDelete`: the id is remembered and the dialog opens. */
    method HandleDelete(id: int)
      requires Valid()
      modifies this
      ensures Valid()
      ensures State() == old(State()).(deleteId := Some(id), isDeleteDialogOpen := true)
    {
      deleteId := Some(id);
      isDeleteDialogOpen := true;
    }

    /** The dialog's cancel button: it only closes; the pending id stays. */
    method CancelDelete()
      requires Valid()
      modifies this
      ensures Valid()
      ensures State() == old(State()).(isDeleteDialogOpen := false)
    {
      isDeleteDialogOpen := false;
    }

    /** `confirmDelete`, given the backend's answer to the DELETE. Without a
      pending id nothing happens. The page is not moved back, so it may be
      left past the last one. */
    method ConfirmDelete(reply: Reply<()>) returns (request: Option<UserRequest>)
      requires Valid()
      modifies this
      ensures Valid()
      ensures old(deleteId).None? ==> request.None? && State() == old(State())
      ensures old(deleteId).Some? ==> request == Some(Remove(UserPath(old(deleteId).value)))
      ensures old(deleteId).Some? && reply.Ok? ==>
        State() == old(State()).(users := WithoutId(old(users), old(deleteId).value, UserId), error := None,
                                 isLoading := false, isDeleteDialogOpen := false, deleteId := None)
      ensures old(deleteId).Some? && reply.Failed? ==>
        State() == old(State()).(error := Some(DeleteError),
                                 isLoading := false, isDeleteDialogOpen := false, deleteId := None)
    {
      request := None;
      if deleteId.Some? {
        var id := deleteId.value;
        isLoading := true;
        request := Some(Remove(UserPath(id)));
        if reply.Ok? {
          users := WithoutId(users, id, UserId);
          error := None;
        } else {
          error := Some(DeleteError);
        }
        isLoading := false;
        isDeleteDialogOpen := false;
        deleteId := None;
      }
    }

    /** `handleCreateSubmit`, given the backend's answer to the registration:
      success appends the backend's record and closes the dialog, failure
      sets the message; either way submitting is over. */
    method HandleCreateSubmit(v: UserValues, reply: Reply<User>) returns (request: UserRequest)
      requires Valid()
      modifies this
      ensures Valid()
      ensures request == Register(v)
      ensures reply.Ok? ==>
        State() == old(State()).(users := old(users) + [reply.data], isCreateModalOpen := false,
                                 error := None, isSubmitting := false)
      ensures reply.Failed? ==> State() == old(State()).(error := Some(CreateError), isSubmitting := false)
    {
      isSubmitting := true;
      request := Register(v);
      match reply {
        case Ok(created) =>
          users := users + [created];
          isCreateModalOpen := false;
          error := None;
        case Failed(_) =>
          error := Some(CreateError);
      }
      isSubmitting := false;
    }

    /** The create dialog's submit: the handler runs only when the schema
      accepts the values; otherwise the form shows its errors and nothing
      is sent. */
    method SubmitCreate(v: UserValues, isEmail: string -> bool, reply: Reply<User>) returns (request: Option<UserRequest>)
      requires Valid()
      modifies this
      ensures Valid()
      ensures request.Some? <==> CreateErrors(v, isEmail) == map[]
      ensures request.None? ==> State() == old(State())
      ensures request.Some? && reply.Ok? ==>
        request.value == Register(v) &&
        State() == old(State()).(users := old(users) + [reply.data], isCreateModalOpen := false,
                                 error := None, isSubmitting := false)
      ensures request.Some? && reply.Failed? ==>
        request.value == Register(v) &&
        State() == old(State()).(error := Some(CreateError), isSubmitting := false)
    {
      var errors := CreateErrors(v, isEmail);
      if errors != map[] {
        request := None;
      } else {
        var sent := HandleCreateSubmit(v, reply);
        request := Some(sent);
      }
    }

    /** `handleEditClick`: the user is selected and the dialog opens on
      their data. */
    method HandleEditClick(u: User)
      requires Valid()
      modifies this
      ensures Valid()
      ensures State() == old(State()).(selectedUser := Some(u), editValues := Some(EditDefaults(u)), isEditModalOpen := true)
    {
      selectedUser := Some(u);
      editValues := Some(EditDefaults(u));
      isEditModalOpen := true;
    }

    /** `handleEditSubmit`, given the backend's answer: without a selected
      user it returns at once; otherwise it sends the payload without an
      empty password, and success puts the backend's record in place of
      every user with the selected id and closes the dialog, failure sets
      the message; either way submitting is over. */
    method HandleEditSubmit(v: UserValues, reply: Reply<User>) returns (request: Option<UserRequest>)
      requires Valid()
      modifies this
      ensures Valid()
      ensures request.Some? <==> old(selectedUser).Some?
      ensures request.None? ==> State() == old(State())
      ensures request.Some? ==>
        request.value == Update(UserPath(old(selectedUser).value.id), EditPayload(v))
      ensures request.Some? && reply.Ok? ==>
        State() == old(State()).(users := ReplaceId(old(users), old(selectedUser).value.id, reply.data, UserId),
                                 isEditModalOpen := false, selectedUser := None,
                                 error := None, isSubmitting := false)
      ensures request.Some? && reply.Failed? ==>
        State() == old(State()).(error := Some(UpdateError), isSubmitting := false)
    {
      if selectedUser.None? {
        request := None;
        return;
      }
      var id := selectedUser.value.id;
      isSubmitting := true;
      request := Some(Update(UserPath(id), EditPayload(v)));
      match reply {
        case Ok(updated) =>
          users := ReplaceId(users, id, updated, UserId);
          isEditModalOpen := false;
          selectedUser := None;
          error := None;
        case Failed(_) =>
          error := Some(UpdateError);
      }
      isSubmitting := false;
    }

    /** The edit dialog's submit: the handler runs only when the edit schema
      accepts the values. */
    method SubmitEdit(v: UserValues, isEmail: string -> bool, reply: Reply<User>) returns (request: Option<UserRequest>)
      requires Valid()
      modifies this
      ensures Valid()
      ensures request.Some? <==> EditErrors(v, isEmail) == map[] && old(selectedUser).Some?
      ensures request.None? ==> State() == old(State())
      ensures request.Some? ==>
        request.value == Update(UserPath(old(selectedUser).value.id), EditPayload(v))
      ensures request.Some? && reply.Ok? ==>
        State() == old(State()).(users := ReplaceId(old(users), old(selectedUser).value.id, reply.data, UserId),
                                 isEditModalOpen := false, selectedUser := None,
                                 error := None, isSubmitting := false)
      ensures request.Some? && reply.Failed? ==>
        State() == old(State()).(error := Some(UpdateError), isSubmitting := false)
    {
      var errors := EditErrors(v, isEmail);
      if errors != map[] {
        request := None;
      } else {
        request := HandleEditSubmit(v, reply);
      }
    }
  }

  /** A confirmed delete of a listed user, with unique ids, takes out exactly
      that user and keeps the others in order. */
  lemma DeleteListedUser(users: seq<User>, k: nat)
    requires k < |users| && UniqueIds(users, UserId)
    ensures WithoutId(users, users[k].id, UserId) == users[..k] + users[k + 1..]
  {
    WithoutPresentUniqueId(users, k, UserId);
  }

  /** An edit answered with a record of the same id keeps the ids unique. */
  lemma EditKeepsUniqueIds(users: seq<User>, updated: User)
    requires UniqueIds(users, UserId)
    ensures UniqueIds(ReplaceId(users, updated.id, updated, UserId), UserId)
  {
    ReplaceKeepsUniqueIds(users, updated.id, updated, UserId);
  }
}
