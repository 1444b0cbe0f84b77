/** The gated message view: a login form checked against a fixed list of
    credential records, and the logged-in dashboard with a logout button. */
module SecretMessage {
  import opened Wrappers

  /** One record of the message list: the credentials and the message they unlock.
      `images` is absent in records that attach no photos. */
  datatype Entry = Entry(
    username: string,
    password: string,
    name: string,
    title: string,
    message: string,
    images: Option<seq<string>>)

  /** ASCII lower-casing of one character. */
  function LowerChar(c: char): (r: char)
    ensures 'A' <= c <= 'Z' ==> r as int == c as int + 32
    ensures !('A' <= c <= 'Z') ==> r == c
    ensures !('A' <= r <= 'Z')
  {
    if 'A' <= c <= 'Z' then (c as int + 32) as char else c
  }

  /** `toLowerCase`, restricted to ASCII letters. */
  function Lower(s: string): (r: string)
    ensures |r| == |s|
    ensures forall i :: 0 <= i < |s| ==> r[i] == LowerChar(s[i])
  {
    if s == [] then [] else [LowerChar(s[0])] + Lower(s[1..])
  }

  /** Lower-casing twice is lower-casing once. */
  lemma LowerIdempotent(s: string)
    ensures Lower(Lower(s)) == Lower(s)
  {
    var l := Lower(s);
    assert forall i :: 0 <= i < |l| ==> LowerChar(l[i]) == l[i];
  }

  /** Whether a record accepts the typed credentials: the user name compared without
      regard to case, the password exactly. */
  predicate Matches(e: Entry, username: string, password: string)
  {
    Lower(e.username) == Lower(username) && e.password == password
  }

  /** `Array.prototype.find`: the first record, in list order, that accepts the credentials. */
  function FindUser(entries: seq<Entry>, username: string, password: string): Option<Entry>
  {
    if entries == [] then None
    else if Matches(entries[0], username, password) then Some(entries[0])
    else FindUser(entries[1..], username, password)
  }

  /** Record `i` is the first that accepts the credentials. */
  predicate FirstMatchAt(entries: seq<Entry>, username: string, password: string, i: int)
  {
    && 0 <= i < |entries|
    && Matches(entries[i], username, password)
    && forall j :: 0 <= j < i ==> !Matches(entries[j], username, password)
  }

  /** The lookup finds nothing exactly when no record accepts the credentials, and
      otherwise finds the first record that does. */
  lemma {:induction false} FindUserIsFirstMatch(entries: seq<Entry>, username: string, password: string)
    ensures FindUser(entries, username, password).None? <==>
            forall j :: 0 <= j < |entries| ==> !Matches(entries[j], username, password)
    ensures FindUser(entries, username, password).Some? ==>
            exists i :: FirstMatchAt(entries, username, password, i)
                     && entries[i] == FindUser(entries, username, password).value
    decreases |entries|
  {
    if entries != [] && !Matches(entries[0], username, password) {
      var rest := entries[1..];
      FindUserIsFirstMatch(rest, username, password);
      if FindUser(rest, username, password).Some? {
        var i :| FirstMatchAt(rest, username, password, i)
                 && rest[i] == FindUser(rest, username, password).value;
        assert FirstMatchAt(entries, username, password, i + 1);
      } else {
        assert forall j :: 1 <= j < |entries| ==> entries[j] == rest[j - 1];
      }
    } else if entries != [] {
      assert FirstMatchAt(entries, username, password, 0);
    }
  }

  /** The case in which the user name is typed does not change the outcome. */
  lemma {:induction false} FindUserIgnoresCase(entries: seq<Entry>, username: string, password: string)
    ensures FindUser(entries, Lower(username), password) == FindUser(entries, username, password)
    decreases |entries|
  {
    LowerIdempotent(username);
    if entries != [] {
      FindUserIgnoresCase(entries[1..], username, password);
    }
  }

  /** The photo count shown on the dashboard: the length of `images`, or 0 when absent. */
  function AttachedCount(user: Entry): (r: nat)
    ensures user.images.None? ==> r == 0
    ensures user.images.Some? ==> r == |user.images.value|
  {
    match user.images
    case Some(imgs) => |imgs|
    case None => 0
  }

  /** One tile of the dashboard's photo grid: the image it shows and its position,
      from which its caption "Memory n" and its entry delay are derived. */
  datatype Tile = Tile(src: string, position: nat)

  /** The photo grid: one tile per image, in order, and no grid without images. */
  function PhotoGrid(user: Entry): seq<Tile>
  {
    match user.images
    case None => []
    case Some(imgs) => TilesFrom(imgs, 0)
  }

  /** `imgs.map((img, idx) => ...)`, with the index starting at `first`. */
  function TilesFrom(imgs: seq<string>, first: nat): seq<Tile>
    decreases |imgs|
  {
    if imgs == [] then [] else [Tile(imgs[0], first)] + TilesFrom(imgs[1..], first + 1)
  }

  lemma {:induction false} TilesFromShape(imgs: seq<string>, first: nat)
    ensures |TilesFrom(imgs, first)| == |imgs|
    ensures forall i :: 0 <= i < |imgs| ==>
      TilesFrom(imgs, first)[i] == Tile(imgs[i], first + i)
    decreases |imgs|
  {
    if imgs != [] {
      TilesFromShape(imgs[1..], first + 1);
    }
  }

  /** The count in the heading is the number of tiles rendered below it, and tile i
      shows image i as "Memory i+1". */
  lemma PhotoGridMatchesCount(user: Entry)
    ensures |PhotoGrid(user)| == AttachedCount(user)
    ensures forall i :: 0 <= i < |PhotoGrid(user)| ==>
      PhotoGrid(user)[i].src == user.images.value[i] && PhotoGrid(user)[i].position == i
  {
    if user.images.Some? {
      TilesFromShape(user.images.value, 0);
    }
  }

  /** The component's four state variables over the fixed record list. */
  class LoginGate {
    const entries: seq<Entry>
    var currentUser: Option<Entry>
    var username: string
    var password: string
    var error: bool

    /** Nobody logged in, both fields empty, no error shown. */
    constructor (entries: seq<Entry>)
      ensures this.entries == entries
      ensures currentUser == None && username == "" && password == "" && !error
    {
      this.entries := entries;
      currentUser := None;
      username := "";
      password := "";
      error := false;
    }

    /** Typing into the user-name field. */
    method SetUsername(value: string)
      modifies this
      ensures username == value
      ensures currentUser == old(currentUser) && password == old(password) && error == old(error)
    {
      username := value;
    }

    /** Typing into the password field. */
    method SetPassword(value: string)
      modifies this
      ensures password == value
      ensures currentUser == old(currentUser) && username == old(username) && error == old(error)
    {
      password := value;
    }

    /** Submitting the form. On a match the record becomes the current user, the error
        is cleared and both fields are emptied; otherwise only the error is raised. */
    method HandleLogin()
      modifies this
      ensures var found := FindUser(entries, old(username), old(password));
        if found.Some? then
          currentUser == found && !error && username == "" && password == ""
        else
          error && currentUser == old(currentUser) && username == old(username) && password == old(password)
      ensures currentUser.Some? && currentUser != old(currentUser) ==>
        currentUser.value in entries && Matches(currentUser.value, old(username), old(password))
    {
      var found := FindUser(entries, username, password);
      FindUserIsFirstMatch(entries, username, password);
      if found.Some? {
        currentUser := found;
        error := false;
        username := "";
        password := "";
      } else {
        error := true;
      }
    }

    /** The logout button: the current user is cleared and nothing else changes. */
    method HandleLogout()
      modifies this
      ensures currentUser == None
      ensures username == old(username) && password == old(password) && error == old(error)
    {
      currentUser := None;
    }
  }
}
