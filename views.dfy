/**
 * The decisions of recipes/views.py: which permissions each view set applies
 * to each action, whether a request passes them, which serializer the recipe
 * view uses, and which comments the nested comment view sees.
 *
 * Actions are the framework's action names ("list", "create", "retrieve",
 * "update", "partial_update", "destroy", a custom action such as "me", or
 * any other name) and HTTP methods their upper-case names, as strings, the
 * way the source matches them.
 */
module Views {
  import opened Models
  import opened Permissions
  import opened Serializers

  datatype ViewSet = RecipeViewSet | IngredientViewSet | CommentViewSet | ProfileViewSet

  datatype Verdict = Allow | Deny

  /** The permission list of a view set for an action (`get_permissions`, or the class attribute). */
  function GetPermissions(view: ViewSet, action: string): seq<Permission> {
    match view
    case RecipeViewSet =>
      if action == "create" then [IsAuthenticated]
      else if action in {"update", "partial_update", "destroy"} then [IsOwner]
      else if action in {"retrieve", "list"} then []
      else [IsAuthenticated]
    case IngredientViewSet =>
      [IsAuthenticatedOrReadOnly]
    case CommentViewSet =>
      if action == "create" then [IsAuthenticated]
      else if action in {"update", "partial_update"} then [IsOwner]
      else if action in {"retrieve", "list"} then []
      else if action == "destroy" then [Or(IsOwner, IsAdminUser)]
      else [IsAuthenticated]
    case ProfileViewSet =>
      if action in {"update", "partial_update"} then [IsOwner]
      else if action == "me" then [IsAuthenticated]
      else [IsAdminUser]
  }

  /**
   * The access decision for a request: `target` is the owner (`user`) of the
   * object the handler fetches, or None when it fetches none (list, create,
   * the profile's `me`).
   */
  function Decide(view: ViewSet, action: string, httpMethod: string, user: Principal, target: Option<UserId>): Verdict {
    if Permits(GetPermissions(view, action), httpMethod, user, target) then Allow else Deny
  }

  /** What a caller must be, stated without permission classes. */
  datatype Requirement = Public | Authenticated | OwnerOnly | OwnerOrStaff | StaffOnly | AuthenticatedOrReadOnly

  /** The decision table of the app: one requirement per view set and action. */
  function Required(view: ViewSet, action: string): Requirement {
    match view
    case RecipeViewSet =>
      if action in {"retrieve", "list"} then Public
      else if action in {"update", "partial_update", "destroy"} then OwnerOnly
      else Authenticated
    case IngredientViewSet => AuthenticatedOrReadOnly
    case CommentViewSet =>
      if action in {"retrieve", "list"} then Public
      else if action in {"update", "partial_update"} then OwnerOnly
      else if action == "destroy" then OwnerOrStaff
      else Authenticated
    case ProfileViewSet =>
      if action in {"update", "partial_update"} then OwnerOnly
      else if action == "me" then Authenticated
      else StaffOnly
  }

  /** Whether a caller meets a requirement; an ownership requirement is about the fetched object, if any. */
  predicate Meets(req: Requirement, httpMethod: string, user: Principal, target: Option<UserId>) {
    match req
    case Public => true
    case Authenticated => user.User?
    case OwnerOnly => target.None? || user.Is(target.value)
    case OwnerOrStaff => target.None? || user.Is(target.value) || user.IsStaff()
    case StaffOnly => user.IsStaff()
    case AuthenticatedOrReadOnly => httpMethod in SafeMethods || user.User?
  }

  /** The permission classes of every view set and action implement exactly the decision table. */
  lemma DecideFollowsTable(view: ViewSet, action: string, httpMethod: string, user: Principal, target: Option<UserId>)
    ensures Decide(view, action, httpMethod, user, target) == Allow
        <==> Meets(Required(view, action), httpMethod, user, target)
  {
    var ps := GetPermissions(view, action);
    if ps != [] {
      assert ps == [ps[0]];
      PermitsSingleton(ps[0], httpMethod, user, target);
      match view
      case RecipeViewSet =>
      case IngredientViewSet =>
      case CommentViewSet =>
      case ProfileViewSet =>
    }
  }

  /** Anyone, anonymous callers included, may list and read recipes. */
  lemma RecipeReadIsPublic(action: string, httpMethod: string, user: Principal, target: Option<UserId>)
    requires action in {"list", "retrieve"}
    ensures Decide(RecipeViewSet, action, httpMethod, user, target) == Allow
  {
    DecideFollowsTable(RecipeViewSet, action, httpMethod, user, target);
  }

  /** Creating a recipe, and every action not named in the table, needs an authenticated caller. */
  lemma RecipeOtherActionsNeedAuthentication(action: string, httpMethod: string, user: Principal, target: Option<UserId>)
    requires action !in {"list", "retrieve", "update", "partial_update", "destroy"}
    ensures Decide(RecipeViewSet, action, httpMethod, user, target) == Allow <==> user.User?
  {
    DecideFollowsTable(RecipeViewSet, action, httpMethod, user, target);
  }

  /**
   * Updating or deleting a recipe is allowed exactly to its owner: a staff
   * user who does not own it is refused.
   */
  lemma RecipeWriteIsOwnerOnly(action: string, httpMethod: string, user: Principal, owner: UserId)
    requires action in {"update", "partial_update", "destroy"}
    ensures Decide(RecipeViewSet, action, httpMethod, user, Some(owner)) == Allow
        <==> (user.User? && user.id == owner)
    ensures user.User? && user.isStaff && user.id != owner ==>
      Decide(RecipeViewSet, action, httpMethod, user, Some(owner)) == Deny
  {
    DecideFollowsTable(RecipeViewSet, action, httpMethod, user, Some(owner));
  }

  /** Ingredients are decided by HTTP method and authentication: reads are open, anything else needs an authenticated caller. */
  lemma IngredientByMethod(action: string, httpMethod: string, user: Principal, target: Option<UserId>)
    ensures httpMethod in SafeMethods ==> Decide(IngredientViewSet, action, httpMethod, user, target) == Allow
    ensures httpMethod !in SafeMethods ==>
      (Decide(IngredientViewSet, action, httpMethod, user, target) == Allow <==> user.User?)
  {
    DecideFollowsTable(IngredientViewSet, action, httpMethod, user, target);
  }

  /** Who owns an ingredient never matters. */
  lemma IngredientIgnoresOwner(action: string, httpMethod: string, user: Principal, t1: Option<UserId>, t2: Option<UserId>)
    ensures Decide(IngredientViewSet, action, httpMethod, user, t1) == Decide(IngredientViewSet, action, httpMethod, user, t2)
  {
    DecideFollowsTable(IngredientViewSet, action, httpMethod, user, t1);
    DecideFollowsTable(IngredientViewSet, action, httpMethod, user, t2);
  }

  /** Anyone may list and read a recipe's comments. */
  lemma CommentReadIsPublic(action: string, httpMethod: string, user: Principal, target: Option<UserId>)
    requires action in {"list", "retrieve"}
    ensures Decide(CommentViewSet, action, httpMethod, user, target) == Allow
  {
    DecideFollowsTable(CommentViewSet, action, httpMethod, user, target);
  }

  /** Posting a comment, and every action not named in the table, needs an authenticated caller. */
  lemma CommentOtherActionsNeedAuthentication(action: string, httpMethod: string, user: Principal, target: Option<UserId>)
    requires action !in {"list", "retrieve", "update", "partial_update", "destroy"}
    ensures Decide(CommentViewSet, action, httpMethod, user, target) == Allow <==> user.User?
  {
    DecideFollowsTable(CommentViewSet, action, httpMethod, user, target);
  }

  /** Editing a comment is allowed exactly to its author: staff get no bypass here. */
  lemma CommentUpdateIsOwnerOnly(action: string, httpMethod: string, user: Principal, owner: UserId)
    requires action in {"update", "partial_update"}
    ensures Decide(CommentViewSet, action, httpMethod, user, Some(owner)) == Allow
        <==> (user.User? && user.id == owner)
    ensures user.User? && user.isStaff && user.id != owner ==>
      Decide(CommentViewSet, action, httpMethod, user, Some(owner)) == Deny
  {
    DecideFollowsTable(CommentViewSet, action, httpMethod, user, Some(owner));
  }

  /** Deleting a comment is allowed to its author and to staff users, and to nobody else. */
  lemma CommentDestroyIsOwnerOrStaff(httpMethod: string, user: Principal, owner: UserId)
    ensures Decide(CommentViewSet, "destroy", httpMethod, user, Some(owner)) == Allow
        <==> (user.User? && (user.id == owner || user.isStaff))
  {
    DecideFollowsTable(CommentViewSet, "destroy", httpMethod, user, Some(owner));
  }

  /** Editing a profile is allowed exactly to the user it belongs to. */
  lemma ProfileUpdateIsOwnerOnly(action: string, httpMethod: string, user: Principal, owner: UserId)
    requires action in {"update", "partial_update"}
    ensures Decide(ProfileViewSet, action, httpMethod, user, Some(owner)) == Allow
        <==> (user.User? && user.id == owner)
  {
    DecideFollowsTable(ProfileViewSet, action, httpMethod, user, Some(owner));
  }

  /** The caller's own profile (`me`) needs only authentication. */
  lemma ProfileMeNeedsAuthentication(httpMethod: string, user: Principal)
    ensures Decide(ProfileViewSet, "me", httpMethod, user, None) == Allow <==> user.User?
  {
    DecideFollowsTable(ProfileViewSet, "me", httpMethod, user, None);
  }

  /** Every other profile action, create, list, retrieve and destroy among them, is for staff only. */
  lemma ProfileOtherActionsAreStaffOnly(action: string, httpMethod: string, user: Principal, target: Option<UserId>)
    requires action !in {"update", "partial_update", "me"}
    ensures Decide(ProfileViewSet, action, httpMethod, user, target) == Allow
        <==> (user.User? && user.isStaff)
  {
    DecideFollowsTable(ProfileViewSet, action, httpMethod, user, target);
  }

  /** The two serializers of the recipe view. */
  datatype RecipeSerializerClass = RecipeCreateSerializer | RecipeSerializer

  /** `RecipeViewSet.get_serializer_class` */
  function GetSerializerClass(action: string): RecipeSerializerClass {
    if action in {"create", "update", "partial_update"} then RecipeCreateSerializer else RecipeSerializer
  }

  /** The writing serializer is used exactly for create, update and partial_update. */
  lemma SerializerChoice(action: string)
    ensures GetSerializerClass(action) == RecipeCreateSerializer
        <==> (action == "create" || action == "update" || action == "partial_update")
    ensures GetSerializerClass(action) == RecipeSerializer
        <==> !(action == "create" || action == "update" || action == "partial_update")
  {
  }

  /** `CommentViewSet.get_queryset`: the stored comments of the recipe named by the path, in order. */
  function CommentQueryset(rows: seq<Comment>, recipePk: RecipeId): seq<Comment> {
    if rows == [] then []
    else if rows[0].recipe == recipePk then [rows[0]] + CommentQueryset(rows[1..], recipePk)
    else CommentQueryset(rows[1..], recipePk)
  }

  /**
   * The queryset holds exactly the stored comments of the path's recipe: a
   * comment under another recipe is never in it.
   */
  lemma {:induction false} CommentQuerysetIsScoped(rows: seq<Comment>, recipePk: RecipeId)
    ensures forall c :: c in CommentQueryset(rows, recipePk) <==> (c in rows && c.recipe == recipePk)
    ensures forall c ::
      multiset(CommentQueryset(rows, recipePk))[c] == (if c.recipe == recipePk then multiset(rows)[c] else 0)
    ensures |CommentQueryset(rows, recipePk)| <= |rows|
  {
    if rows != [] {
      CommentQuerysetIsScoped(rows[1..], recipePk);
      assert rows == [rows[0]] + rows[1..];
      assert multiset(rows) == multiset([rows[0]]) + multiset(rows[1..]);
    }
  }

  /** A comment under a different recipe is not reachable through this recipe's path. */
  lemma OtherRecipesCommentsAreHidden(rows: seq<Comment>, recipePk: RecipeId, c: Comment)
    requires c.recipe != recipePk
    ensures c !in CommentQueryset(rows, recipePk)
  {
    CommentQuerysetIsScoped(rows, recipePk);
  }

  /**
   * A caller allowed to post a comment gets a row for its validated data
   * exactly when the path's recipe exists, and once stored the row is seen
   * under that recipe and under no other.
   */
  lemma CreatedCommentIsScoped(rows: seq<Comment>, data: CommentData, recipePk: RecipeId, other: RecipeId,
                               httpMethod: string, user: Principal, recipes: set<RecipeId>, id: CommentId)
    requires Decide(CommentViewSet, "create", httpMethod, user, None) == Allow
    requires other != recipePk
    ensures CreateComment(data, recipePk, user, recipes, id).Success? <==> recipePk in recipes
    ensures CreateComment(data, recipePk, user, recipes, id).Success? ==>
      var c := CreateComment(data, recipePk, user, recipes, id).value;
      c in CommentQueryset(rows + [c], recipePk) && c !in CommentQueryset(rows + [c], other)
  {
    DecideFollowsTable(CommentViewSet, "create", httpMethod, user, None);
    if recipePk in recipes {
      var c := CreateComment(data, recipePk, user, recipes, id).value;
      CommentQuerysetIsScoped(rows + [c], recipePk);
      CommentQuerysetIsScoped(rows + [c], other);
    }
  }
}
