/**
 * The parts of recipes/serializers.py that decide something: the display
 * name and image of a recipe's ingredient line (override, then fallback),
 * the nested `ingredients` list of a recipe, and the creation of a comment
 * bound to the recipe of the path and to the caller.
 *
 * `build_absolute_uri(file.url)` belongs to the framework and the storage
 * backend; it is the parameter `abs`, a function from a stored file name to
 * an absolute URL about which nothing else is known.
 */
module Serializers {
  import opened Models

  /** Reading `.url` of an image column that holds no file fails. */
  datatype FileError = NoFileAssociated(field: string)

  /** One entry of a recipe's `ingredients` list, as the client receives it. */
  datatype IngredientEntry = IngredientEntry(id: nat, name: string, amount: int, unit: string, image: string)

  /** The name shown for a line: its own name unless that is NULL. */
  function GetName(item: RecipeIngredient): string {
    if item.customName != None then item.customName.value else item.ingredient.name
  }

  /** `abs(file.url)`, where `.url` refuses a column without a file (NULL or an empty name). */
  function FileUrl(field: string, file: Option<string>, abs: string -> string): Result<string, FileError> {
    if file == None || file.value == "" then Failure(NoFileAssociated(field))
    else Success(abs(file.value))
  }

  /**
   * The image shown for a line: its own image unless that column holds the
   * empty name. A NULL column is not the empty name, so it takes the first
   * branch and fails there.
   */
  function GetImage(item: RecipeIngredient, abs: string -> string): Result<string, FileError> {
    if item.customImage != Some("") then FileUrl("custom_image", item.customImage, abs)
    else FileUrl("image", Some(item.ingredient.image), abs)
  }

  /** The representation of one line (fields id, name, amount, unit, image). */
  function Represent(item: RecipeIngredient, abs: string -> string): Result<IngredientEntry, FileError> {
    match GetImage(item, abs)
    case Failure(e) => Failure(e)
    case Success(url) => Success(IngredientEntry(item.id, GetName(item), item.amount, item.unit, url))
  }

  /** The `ingredients` list of a recipe: each line represented in turn; the first failure aborts. */
  function RepresentAll(items: seq<RecipeIngredient>, abs: string -> string): Result<seq<IngredientEntry>, FileError> {
    if items == [] then Success([])
    else
      match Represent(items[0], abs)
      case Failure(e) => Failure(e)
      case Success(entry) =>
        match RepresentAll(items[1..], abs)
        case Failure(e) => Failure(e)
        case Success(rest) => Success([entry] + rest)
  }

  /** A line's own name is shown whenever it is not NULL, even when it is empty. */
  lemma NameOverrideWins(item: RecipeIngredient)
    requires item.customName.Some?
    ensures GetName(item) == item.customName.value
  {
  }

  /** The shared ingredient's name is shown when the line's own name is NULL. */
  lemma NameFallsBackOnNull(item: RecipeIngredient)
    requires item.customName.None?
    ensures GetName(item) == item.ingredient.name
  {
  }

  /** The line's own image is shown whenever it names a file. */
  lemma ImageOverrideWins(item: RecipeIngredient, abs: string -> string)
    requires item.customImage.Some? && item.customImage.value != ""
    ensures GetImage(item, abs) == Success(abs(item.customImage.value))
  {
  }

  /**
   * Only the empty name falls back to the shared ingredient's image, and the
   * result is a URL exactly when that image names a file.
   */
  lemma ImageFallsBackOnEmpty(item: RecipeIngredient, abs: string -> string)
    requires item.customImage == Some("")
    ensures item.ingredient.image != "" ==> GetImage(item, abs) == Success(abs(item.ingredient.image))
    ensures item.ingredient.image == "" ==> GetImage(item, abs).Failure?
  {
  }

  /** A NULL image column does not fall back: reading its URL fails. */
  lemma NullImageFails(item: RecipeIngredient, abs: string -> string)
    requires item.customImage.None?
    ensures GetImage(item, abs) == Failure(NoFileAssociated("custom_image"))
  {
  }

  /**
   * The image is always resolved through `abs`, from the line's own file or
   * from the shared ingredient's, and which one depends on the line's column
   * alone.
   */
  lemma ImageSource(item: RecipeIngredient, abs: string -> string)
    ensures GetImage(item, abs).Success? ==>
      if item.customImage == Some("")
      then GetImage(item, abs).value == abs(item.ingredient.image)
      else item.customImage.Some? && GetImage(item, abs).value == abs(item.customImage.value)
  {
  }

  /**
   * The `ingredients` list succeeds exactly when every line resolves; it then
   * has one entry per line, and entry `i` is the representation of line `i`.
   */
  lemma {:induction false} RepresentAllPointwise(items: seq<RecipeIngredient>, abs: string -> string)
    ensures RepresentAll(items, abs).Success?
        <==> forall i :: 0 <= i < |items| ==> Represent(items[i], abs).Success?
    ensures RepresentAll(items, abs).Success? ==>
      && |RepresentAll(items, abs).value| == |items|
      && forall i :: 0 <= i < |items| ==> RepresentAll(items, abs).value[i] == Represent(items[i], abs).value
  {
    if items != [] {
      RepresentAllPointwise(items[1..], abs);
      assert forall i :: 1 <= i < |items| ==> items[i] == items[1..][i - 1];
    }
  }

  /** Entry `i` of a successful list shows line `i`'s resolved name and image, and keeps its id, amount and unit. */
  lemma EntryShowsLine(items: seq<RecipeIngredient>, abs: string -> string, i: nat)
    requires RepresentAll(items, abs).Success?
    requires i < |items|
    ensures i < |RepresentAll(items, abs).value|
    ensures GetImage(items[i], abs).Success?
    ensures RepresentAll(items, abs).value[i]
        == IngredientEntry(items[i].id, GetName(items[i]), items[i].amount, items[i].unit, GetImage(items[i], abs).value)
  {
    RepresentAllPointwise(items, abs);
  }

  /**
   * A comment as the client sends it. `user` and `recipe` are read-only
   * fields: whatever the client puts there is dropped by validation.
   */
  datatype CommentInput = CommentInput(comment: string, user: Option<UserId>, recipe: Option<RecipeId>)

  /** The validated data of a comment: the writable fields only. */
  datatype CommentData = CommentData(comment: string)

  /**
   * Why saving a comment fails: the author is not a user row (an anonymous
   * caller), or the path's recipe key names no stored recipe (the foreign key
   * refuses the insert; the view never checks the key beforehand).
   */
  datatype CreateError = AuthorNotAUser | RecipeMissing

  /** Validation keeps the writable `comment` field and drops the read-only ones. */
  function Validate(input: CommentInput): CommentData {
    CommentData(input.comment)
  }

  /**
   * `CommentSerializer.create`: a new row under the recipe of the path and by
   * the caller, with the validated text. `recipes` holds the keys of the
   * stored recipes; `id` is the key the database assigns.
   */
  function CreateComment(data: CommentData, recipePk: RecipeId, user: Principal, recipes: set<RecipeId>, id: CommentId): Result<Comment, CreateError> {
    if user.Anonymous? then Failure(AuthorNotAUser)
    else if recipePk !in recipes then Failure(RecipeMissing)
    else Success(Comment(id, recipePk, user.id, data.comment))
  }

  /**
   * A comment created from validated data belongs to the recipe of the path
   * and to the caller, and keeps the validated text; it is created exactly
   * when the caller is a user and the path's recipe exists.
   */
  lemma CreateBindsRecipeAndUser(data: CommentData, recipePk: RecipeId, user: Principal, recipes: set<RecipeId>, id: CommentId)
    ensures CreateComment(data, recipePk, user, recipes, id).Success? <==> (user.User? && recipePk in recipes)
    ensures user.Anonymous? ==> CreateComment(data, recipePk, user, recipes, id) == Failure(AuthorNotAUser)
    ensures user.User? && recipePk !in recipes ==> CreateComment(data, recipePk, user, recipes, id) == Failure(RecipeMissing)
    ensures CreateComment(data, recipePk, user, recipes, id).Success? ==>
      var c := CreateComment(data, recipePk, user, recipes, id).value;
      c.recipe == recipePk && c.user == user.id && c.text == data.comment && c.id == id
  {
  }

  /** What the client sends as `user` or `recipe` makes no difference to the created comment. */
  lemma CreateIgnoresClientBinding(a: CommentInput, b: CommentInput, recipePk: RecipeId, user: Principal, recipes: set<RecipeId>, id: CommentId)
    requires a.comment == b.comment
    ensures CreateComment(Validate(a), recipePk, user, recipes, id) == CreateComment(Validate(b), recipePk, user, recipes, id)
  {
  }
}
