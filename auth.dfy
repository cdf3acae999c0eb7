/** The sign-in store (src/context/AuthContext.tsx): whether someone is signed in, who,
    and whether an operation is under way, changed by login, register, logout and
    profile updates. The simulated delays and the copy kept in `localStorage` are not part
    of this model. */
module Auth {
  import opened Wrappers

  /** A signed-in user; `profileImage` may be absent. */
  datatype User = User(id: int, name: string, email: string, phone: string, profileImage: Option<string>)

  /** A `Partial<User>`: `None` for a key that is not given. A given `profileImage` may
      itself be `undefined`, which the spread copies, hence the nested option. */
  datatype Patch = Patch(id: Option<int>, name: Option<string>, email: Option<string>, phone: Option<string>,
                         profileImage: Option<Option<string>>)

  /** The only credentials the mock accepts. */
  const DemoEmail: string := "demo@example.com"
  const DemoPassword: string := "password"

  /** The user the demo credentials sign in. */
  const DemoUser: User := User(1, "احمد محمدی", "demo@example.com", "09123456789", None)

  /** `{ ...user, ...patch }`: every key the patch gives replaces the user's. */
  function Overlay(u: User, p: Patch): User {
    User(p.id.GetOr(u.id), p.name.GetOr(u.name), p.email.GetOr(u.email), p.phone.GetOr(u.phone),
         p.profileImage.GetOr(u.profileImage))
  }

  /** `{ ...p, ...q }` on two patches. */
  function Merge(p: Patch, q: Patch): Patch {
    Patch(if q.id.Some? then q.id else p.id,
          if q.name.Some? then q.name else p.name,
          if q.email.Some? then q.email else p.email,
          if q.phone.Some? then q.phone else p.phone,
          if q.profileImage.Some? then q.profileImage else p.profileImage)
  }

  /** The patch that gives no key. */
  const NoChange: Patch := Patch(None, None, None, None, None)

  /** Every key the patch gives takes the given value, and every other key keeps the user's
      value; an empty patch changes nothing, and two updates in a row amount to one with
      the merged patch. */
  lemma OverlaySpec(u: User, p: Patch, q: Patch)
    ensures p.name.Some? ==> Overlay(u, p).name == p.name.value
    ensures p.name.None? ==> Overlay(u, p).name == u.name
    ensures p.email.Some? ==> Overlay(u, p).email == p.email.value
    ensures p.email.None? ==> Overlay(u, p).email == u.email
    ensures p.phone.Some? ==> Overlay(u, p).phone == p.phone.value
    ensures p.phone.None? ==> Overlay(u, p).phone == u.phone
    ensures p.profileImage.Some? ==> Overlay(u, p).profileImage == p.profileImage.value
    ensures p.profileImage.None? ==> Overlay(u, p).profileImage == u.profileImage
    ensures p.id.None? ==> Overlay(u, p).id == u.id
    ensures Overlay(u, NoChange) == u
    ensures Overlay(Overlay(u, p), q) == Overlay(u, Merge(p, q))
  {
  }

  /** The store's state. */
  class AuthStore {
    var isAuthenticated: bool
    var user: Option<User>
    var loading: bool

    /** Someone is signed in exactly when there is a user. */
    predicate Valid()
      reads this
    {
      isAuthenticated <==> user.Some?
    }

    /** Nobody signed in, nothing under way. */
    constructor()
      ensures !isAuthenticated && user == None && !loading && Valid()
    {
      isAuthenticated := false;
      user := None;
      loading := false;
    }

    /** The start-up effect with the user saved by an earlier session, if one was saved and
        reads back. */
    method Restore(saved: Option<User>)
      modifies this
      ensures saved.Some? ==> isAuthenticated && user == saved && !loading
      ensures saved.None? ==> isAuthenticated == old(isAuthenticated) && user == old(user) && loading == old(loading)
      ensures old(Valid()) ==> Valid()
    {
      if saved.Some? {
        isAuthenticated := true;
        user := saved;
        loading := false;
      }
    }

    /** `login(email, password)`: succeeds exactly for the demo credentials and signs in the
        demo user; a failure leaves who is signed in as it was. */
    method Login(email: string, password: string) returns (ok: bool)
      modifies this
      ensures ok <==> email == DemoEmail && password == DemoPassword
      ensures ok ==> isAuthenticated && user == Some(DemoUser) && Valid()
      ensures !ok ==> isAuthenticated == old(isAuthenticated) && user == old(user)
      ensures !loading && (old(Valid()) ==> Valid())
    {
      loading := true;
      if email == "demo@example.com" && password == "password" {
        isAuthenticated := true;
        user := Some(User(1, "احمد محمدی", "demo@example.com", "09123456789", None));
        loading := false;
        return true;
      }
      loading := false;
      return false;
    }

    /** `register(name, email, phone)`: always succeeds and signs in a new user with the
        id `freshId` (the clock reading `Date.now()`) and the given name, email and phone. */
    method Register(name: string, email: string, phone: string, freshId: int) returns (ok: bool)
      modifies this
      ensures ok && isAuthenticated && user == Some(User(freshId, name, email, phone, None))
      ensures !loading && Valid()
    {
      loading := true;
      isAuthenticated := true;
      user := Some(User(freshId, name, email, phone, None));
      loading := false;
      return true;
    }

    /** `logout()`: nobody signed in, nothing under way. */
    method Logout()
      modifies this
      ensures !isAuthenticated && user == None && !loading && Valid()
    {
      isAuthenticated := false;
      user := None;
      loading := false;
    }

    /** `updateProfile(patch)`: with nobody signed in it fails and changes nothing;
        otherwise the patch is laid over the user. */
    method UpdateProfile(patch: Patch) returns (ok: bool)
      modifies this
      ensures ok <==> old(user).Some?
      ensures !ok ==> isAuthenticated == old(isAuthenticated) && user == old(user) && loading == old(loading)
      ensures ok ==> user == Some(Overlay(old(user).value, patch)) && isAuthenticated == old(isAuthenticated) && !loading
      ensures old(Valid()) ==> Valid()
    {
      if user.None? {
        return false;
      }
      loading := true;
      var updatedUser := Overlay(user.value, patch);
      user := Some(updatedUser);
      loading := false;
      return true;
    }
  }

  /** Signing in with the demo credentials and then updating the name keeps the demo user's
      id, email and phone. */
  method DemoSessionRename(store: AuthStore, name: string)
    modifies store
    ensures store.user == Some(DemoUser.(name := name)) && store.isAuthenticated && store.Valid()
  {
    var ok := store.Login(DemoEmail, DemoPassword);
    ok := store.UpdateProfile(NoChange.(name := Some(name)));
  }
}
