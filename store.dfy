/** The user record the controllers read and write, and the store holding the
    three collections. backend/models/userModel.js is not part of this model:
    the user's fields are the ones the controllers use. */
module Store {
  import opened Common
  import opened InterviewModel
  import opened PaymentModel

  /** The role a registered user starts with. */
  const DefaultRole: string := "free"

  datatype UserDoc = UserDoc(
    id: string,
    name: string,
    email: string,
    password: string,
    role: string,
    avatar: string,
    resetPasswordOTP: Option<string>,
    resetPasswordOTPExpire: Option<int>,
    resetPasswordToken: Option<string>,
    resetPasswordExpire: Option<int>,
    subscriptionEnd: Option<int>)

  /** A user record. `password` is the credential as last set; hashing it on
      save is done by the user schema, which is not modelled. */
  class User {
    const id: string
    var name: string
    var email: string
    var password: string
    var role: string
    var avatar: string
    var resetPasswordOTP: Option<string>
    var resetPasswordOTPExpire: Option<int>
    var resetPasswordToken: Option<string>
    var resetPasswordExpire: Option<int>
    var subscriptionEnd: Option<int>

    /** A registered user: the default role, no avatar, no reset state and no
        subscription. */
    constructor (id: string, name: string, email: string, password: string)
      ensures Doc() == UserDoc(id, name, email, password, DefaultRole, "", None, None, None, None, None)
    {
      this.id := id;
      this.name := name;
      this.email := email;
      this.password := password;
      this.role := DefaultRole;
      this.avatar := "";
      this.resetPasswordOTP := None;
      this.resetPasswordOTPExpire := None;
      this.resetPasswordToken := None;
      this.resetPasswordExpire := None;
      this.subscriptionEnd := None;
    }

    function Doc(): UserDoc
      reads this
    {
      UserDoc(id, name, email, password, role, avatar, resetPasswordOTP, resetPasswordOTPExpire,
              resetPasswordToken, resetPasswordExpire, subscriptionEnd)
    }
  }

  function UserDocs(us: seq<User>): (r: seq<UserDoc>)
    reads us
    ensures |r| == |us| && forall i :: 0 <= i < |us| ==> r[i] == us[i].Doc()
  {
    seq(|us|, i requires 0 <= i < |us| reads us => us[i].Doc())
  }

  predicate Distinct<T(==)>(s: seq<T>) {
    forall i, j :: 0 <= i < j < |s| ==> s[i] != s[j]
  }

  /** The document store: one sequence per collection, in creation order. */
  class Db {
    var interviews: seq<Interview>
    var payments: seq<Payment>
    var users: seq<User>

    /** No document object appears twice in a collection. */
    ghost predicate Valid()
      reads this
    {
      Distinct(interviews) && Distinct(payments) && Distinct(users)
    }

    constructor ()
      ensures Valid() && interviews == [] && payments == [] && users == []
    {
      interviews := [];
      payments := [];
      users := [];
    }
  }
}
