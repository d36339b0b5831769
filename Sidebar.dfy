/**
 * The navigation sidebar of app/components/Sidebar.tsx: the initial shown for the signed-in
 * user, the name beside it, and the open/closed state of the mobile menu.
 */
module Sidebar {
  import opened Remote
  import opened Text
  import Session

  /** `getUserInitial`: "U" without a user name, else the first character in upper case. */
  function UserInitial(user: Option<Session.User>): (initial: string)
    ensures |initial| == 1
    ensures user.None? || user.value.username.None? || user.value.username.value == [] ==> initial == "U"
    ensures user.Some? && user.value.username.Some? && user.value.username.value != [] ==>
      initial == [UpperAscii(user.value.username.value[0])]
  {
    match user
    case None => "U"
    case Some(u) =>
      match u.username
      case None => "U"
      case Some(name) => if name == [] then "U" else [UpperAscii(name[0])]
  }

  /** Two names with the same first character get the same initial, whatever follows. */
  lemma InitialOnlyFromFirstCharacter(a: Session.User, b: Session.User)
    requires a.username.Some? && b.username.Some? && a.username.value != [] && b.username.value != []
    requires a.username.value[0] == b.username.value[0]
    ensures UserInitial(Some(a)) == UserInitial(Some(b))
  {
  }

  /** A lower-case letter and its capital give the same initial. */
  lemma InitialIgnoresCase(a: Session.User, b: Session.User)
    requires a.username.Some? && b.username.Some? && a.username.value != [] && b.username.value != []
    requires 'a' <= a.username.value[0] <= 'z' && b.username.value[0] as int == a.username.value[0] as int - 32
    ensures UserInitial(Some(a)) == UserInitial(Some(b))
  {
  }

  /** `auth?.user?.username ?? ""`. */
  function DisplayName(user: Option<Session.User>): (name: string)
    ensures user.Some? && user.value.username.Some? ==> name == user.value.username.value
    ensures user.None? || user.value.username.None? ==> name == ""
  {
    if user.Some? && user.value.username.Some? then user.value.username.value else ""
  }

  /** A shown name and its initial agree: the initial is the name's first character, capitalised. */
  lemma InitialOfDisplayName(user: Option<Session.User>)
    ensures var name := DisplayName(user);
      UserInitial(user) == if name == [] then "U" else [UpperAscii(name[0])]
  {
  }

  /** The `isOpen` state of the mobile menu. */
  class Menu {
    var isOpen: bool

    constructor ()
      ensures !isOpen
    {
      isOpen := false;
    }

    /** The menu button. */
    method Toggle()
      modifies this
      ensures isOpen == !old(isOpen)
    {
      isOpen := !isOpen;
    }

    /** A click on a navigation link. */
    method NavClick()
      modifies this
      ensures !isOpen
    {
      isOpen := false;
    }

    /** A click on the backdrop shown behind the open menu. */
    method BackdropClick()
      modifies this
      ensures !isOpen
    {
      isOpen := false;
    }
  }
}
