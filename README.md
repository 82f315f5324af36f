# Dishcovery access and display decisions, in Dafny

Dishcovery is a REST API for recipes built from shared ingredients, with
comments and user profiles. Most of it is declarative configuration of Django
and Django REST framework. This project models the parts that decide
something, and proves what they decide:

- **Access decisions** (`Views`, `Permissions`). `Decide(view, action,
  httpMethod, user, target)` gives the verdict of a view set's permission
  list for a request. It asks every permission's request-level question.
  When the handler fetched an object owned by `target`, it then asks every
  object-level question. The permission classes are the app's `IsOwner` and
  `IsAuthenticatedOrReadOnly`, the library's `IsAuthenticated` and
  `IsAdminUser`, and the `|` composition. A class that leaves out a question
  inherits the library default, which grants. `DecideFollowsTable` proves
  that these lists implement a flat decision table (`Required`/`Meets`).
  Per-view lemmas spell out each row of that table.
- **Ingredient display** (`Serializers`). A recipe line shows its own name
  unless that is NULL. It shows its own image unless that is the empty file
  name. The image is turned into an absolute URL by the opaque parameter
  `abs`. The nested `ingredients` list has one entry per line, in order.
- **Comment scoping and binding** (`Views.CommentQueryset`,
  `Serializers.CreateComment`). The comment view only sees comments of the
  recipe in the path. A new comment keeps its validated text and is bound
  to that recipe and to the caller, whatever the client sends in the
  read-only `user` and `recipe` fields.

The caller is a `Principal`: either `Anonymous` (Django's AnonymousUser) or
`User(id, isStaff)`. An anonymous caller is not authenticated and not staff.
It equals no user row, so it owns nothing. Actions and HTTP methods are
strings, as in the source.

Where the code and its comments disagree, the model follows the code.
Points to note:

- Recipe update and destroy are owner-only. The comment at
  recipes/views.py:33 says an admin may also do them, but the permission list
  is `[IsOwner]` alone.
- A NULL `custom_image` does not fall back to the ingredient's image. It is
  not equal to `""`, so the code reads its `.url`, and that fails.
- Every profile action other than update, partial_update and `me` needs a
  staff user (`IsAdminUser`). That includes create, list and retrieve.
- Ingredient access depends on the HTTP method and on whether the caller is
  authenticated. It never depends on the action or on who created the
  ingredient.
- `CommentViewSet.permission_classes` is never used, because
  `get_permissions` replaces it.

`|` is read with the REST framework's semantics from release 3.14 on. An
operand grants the object only if it also grants the request. So
`IsOwner | IsAdminUser` grants the owner and staff users.

## Model

| member | source | states |
|---|---|---|
| Permissions.AllHavePermissionIff | recipes/views.py:42 | a permission list grants a request exactly when each of its permissions does |
| Permissions.AllHaveObjectPermissionIff | recipes/views.py:42 | a permission list grants an object exactly when each of its permissions does |
| Permissions.PermitsSingleton | recipes/views.py:42 | a one-class list asks that class's request question, and its object question when an object was fetched |
| Permissions.EmptyListPermitsAll | recipes/views.py:37 | an empty permission list lets every request through, for any caller and any object |
| Permissions.IsOwnerIff | recipes/permissions.py:7-8 | IsOwner passes every request; it grants an object exactly when the caller is the user row that owns it |
| Permissions.IsOwnerDeniesAnonymous | recipes/permissions.py:7-8 | an anonymous caller never passes IsOwner's object check |
| Permissions.ReadOnlyGrantsSafeMethods | recipes/permissions.py:16-18 | IsAuthenticatedOrReadOnly grants any GET, HEAD or OPTIONS request, whoever sends it |
| Permissions.ReadOnlyUnsafeNeedsAuthentication | recipes/permissions.py:16-21 | for any other method, IsAuthenticatedOrReadOnly grants exactly the authenticated callers |
| Permissions.OwnerOrAdminIff | recipes/views.py:89 | `IsOwner \| IsAdminUser` passes every request; it grants an object exactly to its owner or a staff user |
| Views.DecideFollowsTable | recipes/views.py:26-109 | for every view set, action, method, caller and target, the permission lists allow exactly what the decision table `Required`/`Meets` allows |
| Views.RecipeReadIsPublic | recipes/views.py:35-37 | recipe list and retrieve are allowed to every caller, anonymous included |
| Views.RecipeOtherActionsNeedAuthentication | recipes/views.py:28-40 | recipe create, and any action not named, is allowed exactly to authenticated callers |
| Views.RecipeWriteIsOwnerOnly | recipes/views.py:32-34 | recipe update, partial_update and destroy are allowed exactly to the owner; a staff non-owner is denied |
| Views.IngredientByMethod | recipes/views.py:61 | any ingredient action is allowed to everyone on GET/HEAD/OPTIONS, and otherwise exactly to authenticated callers |
| Views.IngredientIgnoresOwner | recipes/views.py:61 | the ingredient verdict does not depend on the object's owner, or on whether an object was fetched |
| Views.CommentReadIsPublic | recipes/views.py:86-87 | comment list and retrieve are allowed to every caller |
| Views.CommentOtherActionsNeedAuthentication | recipes/views.py:82-91 | comment create, and any action not named, is allowed exactly to authenticated callers |
| Views.CommentUpdateIsOwnerOnly | recipes/views.py:84-85 | comment update and partial_update are allowed exactly to the author; a staff non-author is denied |
| Views.CommentDestroyIsOwnerOrStaff | recipes/views.py:88-89 | comment destroy is allowed exactly to the author or a staff user |
| Views.ProfileUpdateIsOwnerOnly | recipes/views.py:102-103 | profile update and partial_update are allowed exactly to the profile's user |
| Views.ProfileMeNeedsAuthentication | recipes/views.py:104-105 | the `me` action is allowed exactly to authenticated callers |
| Views.ProfileOtherActionsAreStaffOnly | recipes/views.py:106-107 | every other profile action (create, list, retrieve, destroy, ...) is allowed exactly to staff users |
| Views.SerializerChoice | recipes/views.py:44-51 | the recipe view uses RecipeCreateSerializer exactly for create, update and partial_update, and RecipeSerializer for every other action |
| Views.CommentQuerysetIsScoped | recipes/views.py:77-78 | the comment queryset holds exactly the stored comments whose recipe is the path's `recipe_pk`, each as many times as it is stored, and no more rows than are stored |
| Views.OtherRecipesCommentsAreHidden | recipes/views.py:77-78 | a comment of another recipe is never in the queryset |
| Views.CreatedCommentIsScoped | recipes/views.py:73-83 | a caller allowed to post a comment gets a row for its validated data exactly when the path's recipe exists; once stored, that row is seen under that recipe and under no other |
| Serializers.NameOverrideWins | recipes/serializers.py:20-22 | a non-NULL custom name is shown, even when it is empty |
| Serializers.NameFallsBackOnNull | recipes/serializers.py:23 | a NULL custom name shows the shared ingredient's name |
| Serializers.ImageOverrideWins | recipes/serializers.py:27-28 | a custom image that names a file is shown as `abs` of that file |
| Serializers.ImageFallsBackOnEmpty | recipes/serializers.py:29 | an empty custom image shows `abs` of the ingredient's image, and fails when that image names no file |
| Serializers.NullImageFails | recipes/serializers.py:27-28 | a NULL custom image takes the custom branch and fails; it does not fall back |
| Serializers.ImageSource | recipes/serializers.py:25-29 | a shown image is `abs` of the ingredient's image when the custom image is empty, and otherwise `abs` of the custom image |
| Serializers.RepresentAllPointwise | recipes/serializers.py:40 | the `ingredients` list succeeds exactly when every line resolves; it then has one entry per line, and entry i is line i's representation |
| Serializers.EntryShowsLine | recipes/serializers.py:17-33 | entry i of the list carries line i's id, amount and unit, with its resolved name and image |
| Serializers.CreateBindsRecipeAndUser | recipes/serializers.py:113-116 | a comment created from validated data has the path's recipe, the caller as author, the validated text and the key given; creation succeeds exactly when the caller is a user and the path's recipe exists, and fails for an anonymous caller or a missing recipe |
| Serializers.CreateIgnoresClientBinding | recipes/serializers.py:99-100 | client-sent `user` and `recipe` values make no difference to the created comment |

## Left out

- Views.Decide: the target is an input. The model assumes the framework
  passes the object exactly when the handler fetches one. That is always the
  case for retrieve, update, partial_update and destroy. With no object,
  owner-based permissions pass, as they do in the framework.
- The mapping of a denial to 401 or 403, and the 404 of a missing object.
  These belong to the framework.
- The body of `ProfileViewSet.me` (recipes/views.py:112-121). It only reads
  and writes the database.
- `IngredientSerializer.create` (recipes/serializers.py:79). It passes an
  argument the base class does not accept and reads a context key that is
  never set.
- `get_context_data` (recipes/views.py:53-55 and 64-66). The framework never
  calls it.
- Search, ordering, filtering and pagination settings, and recipes/filters.py.
  These configure library code.
- recipes/signals.py (profile creation on user creation). It is a database
  side effect.
- The routes that supply `recipe_pk`. recipes/urls.py registers only the
  recipe and ingredient routes, so the path's recipe key is an input.
- Serializers.CreateComment: the database assigns the new row's key. The
  model takes it as an argument and does not model the table insert. The
  set of stored recipe keys is also an argument. The view never checks that
  `recipe_pk` names a stored recipe, so the insert fails at the foreign key
  (a server error, not a 404). The model returns `RecipeMissing` for that
  case and does not model how the failure reaches the client.
- `build_absolute_uri` and the storage backend's `.url`. These are the opaque
  parameter `abs`. Only the refusal of a column without a file is modelled.
- Serializers.Validate: only the dropping of the read-only `user` and
  `recipe` fields is modelled. The framework's text field also strips
  surrounding whitespace, and it refuses blank or over-long text before
  `create` runs. That depends on the `comment` column's options, and
  Comment's model is not part of this model. The lemmas about creation are
  therefore stated over the validated data.
- IngredientEntry.amount: the entry carries the decimal amount as a value
  (in hundredths). The client receives it as text, such as `"1.50"`, and the
  model does not capture that text form.
- Permissions.HasObjectPermission: `|` is modelled with the object check of
  REST framework 3.14 and later. In those releases each operand must grant
  both the request and the object. The source pins no framework version. In
  older releases the object check was `op1.has_object_permission or
  op2.has_object_permission`. IsAdminUser's object check grants by default,
  so `IsOwner | IsAdminUser` granted every object there. Comment destroy was
  then open to every caller. The model does not capture that older
  behaviour.
- Views.GetSerializerClass: `RecipeCreateSerializer` is used only as the
  name that recipes/views.py imports and selects. Its definition is not part
  of this model, so what it validates and saves is not modelled.
- The other serializer fields (recipe title, times, profiles). They are
  plain copies of columns.
