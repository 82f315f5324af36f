/**
 * The records of the recipe-sharing app, reduced to the fields the access
 * decisions and the serializers read (recipes/models.py), together with the
 * caller of a request and the small Option/Result wrappers the model uses.
 */
module Models {

  datatype Option<+T> = None | Some(value: T)

  datatype Result<+T, +E> = Success(value: T) | Failure(error: E)

  /** Primary keys of users, recipes and comments. */
  type UserId = nat
  type RecipeId = nat
  type CommentId = nat

  /**
   * The `request.user` of a request: Django's AnonymousUser, or a row of the
   * user table. An anonymous caller is never authenticated, never staff and
   * equal to no user row.
   */
  datatype Principal = Anonymous | User(id: UserId, isStaff: bool) {

    /** `request.user and request.user.is_authenticated` */
    predicate IsLoggedIn() {
      User?
    }

    /** `request.user and request.user.is_staff` */
    predicate IsStaff() {
      User? && isStaff
    }

    /** `owner == request.user` for the user row with primary key `owner` */
    predicate Is(owner: UserId) {
      User? && id == owner
    }
  }

  /** An ingredient shared by all recipes: its name and its stored image file name. */
  datatype Ingredient = Ingredient(name: string, image: string)

  /**
   * One line of a recipe's ingredient list. `customName` is a nullable text
   * column and `customImage` a nullable, blankable image column: `None` is a
   * database NULL, `Some("")` an empty file name.
   */
  datatype RecipeIngredient = RecipeIngredient(
    id: nat,
    ingredient: Ingredient,
    customName: Option<string>,
    customImage: Option<string>,
    amount: int,  // the decimal amount, in hundredths (two decimal places)
    unit: string)

  /** A stored comment: the recipe it belongs to, its author and its text. */
  datatype Comment = Comment(id: CommentId, recipe: RecipeId, user: UserId, text: string)
}
