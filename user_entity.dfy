/**
 * The domain user (`user.User`). The file that declares it is not part of this
 * model; its fields are the ones user_repository.go fills in. The creation and
 * update timestamps are left out. A `*User` is an `Option<User>`, None being nil.
 *
 * The domain methods the handlers call, `(*User).Update` and
 * `(*User).CanDelete`, are declared in that file too, so the handlers take
 * them as parameters of the types below.
 */
module UserEntity {
  import opened Wrappers
  import opened Uuid

  datatype User = User(
    id: UUID,
    email: string,
    firstName: string,
    lastName: string,
    mobileNumber: string)

  /** `user.Update(email, firstName, lastName, mobileNumber)`, called on a possibly nil receiver. */
  type DomainUpdate = (Option<User>, string, string, string, string) -> Result<Option<User>, string>

  /** `user.CanDelete()`: None when the user may be deleted, otherwise the error. */
  type DomainCanDelete = User -> Option<string>
}
