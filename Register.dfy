/** The registration handler (`POST /api/register`) over the users
    collection. It rejects a profile picture that is not an image data URL,
    rejects an email some user already has, and otherwise stores one new
    user whose password is hashed and whose `userID` is freshly generated,
    and returns that `userID`.

    The hash (bcrypt with cost 10) is the collection's `Hash` function,
    about which nothing is assumed, not even that it is injective. The
    generated identifier and the creation time are parameters; the
    identifier, drawn only once both checks have passed, is required to be
    unused, which is what a random version-4 UUID is relied on for. The
    per-call random salt of bcrypt is not modelled: `Hash` gives the same
    result for the same password. */
module Register {
  import opened Optional

  /** The fields the handler reads from the JSON request body. */
  datatype Request = Request(
    firstName: string,
    lastName: string,
    email: string,
    password: string,
    contact: string,
    profilePicture: Option<string>)

  /** A stored user document. `password` holds the hash, never the
      plaintext; `createdAt` is the time of insertion. */
  datatype User = User(
    userID: string,
    firstName: string,
    lastName: string,
    email: string,
    password: string,
    contact: string,
    profilePicture: Option<string>,
    createdAt: nat)

  /** The handler's answers: the new `userID` (status 200), an invalid
      picture (400), or an email already registered (409). */
  datatype Reply = Created(userID: string) | InvalidPicture | EmailRegistered

  function Status(reply: Reply): int {
    match reply
    case Created(_) => 200
    case InvalidPicture => 400
    case EmailRegistered => 409
  }

  /** The database calls the handler makes, in order. */
  datatype DbOp = FindOne(email: string) | InsertOne(user: User)

  const ImagePrefix := "data:image"

  /** JavaScript's `s.startsWith(prefix)`. */
  predicate StartsWith(s: string, prefix: string) {
    |prefix| <= |s| && s[..|prefix|] == prefix
  }

  /** An absent or empty picture is not checked; any other must start
      with `data:image`. */
  predicate PictureAccepted(picture: Option<string>) {
    picture.None? || picture.value == "" || StartsWith(picture.value, ImagePrefix)
  }

  /** `findOne({ email })` finds a user: some stored email is exactly
      `email`, with no case folding or trimming. */
  predicate EmailInUse(users: seq<User>, email: string) {
    exists i :: 0 <= i < |users| && users[i].email == email
  }

  predicate IdInUse(users: seq<User>, id: string) {
    exists i :: 0 <= i < |users| && users[i].userID == id
  }

  predicate EmailsDistinct(users: seq<User>) {
    forall i, j :: 0 <= i < j < |users| ==> users[i].email != users[j].email
  }

  predicate IdsDistinct(users: seq<User>) {
    forall i, j :: 0 <= i < j < |users| ==> users[i].userID != users[j].userID
  }

  /** Appending a user whose email is not in use keeps emails distinct. */
  lemma AppendKeepsEmailsDistinct(users: seq<User>, u: User)
    requires EmailsDistinct(users) && !EmailInUse(users, u.email)
    ensures EmailsDistinct(users + [u])
  {
  }

  /** Appending a user whose identifier is not in use keeps identifiers
      distinct. */
  lemma AppendKeepsIdsDistinct(users: seq<User>, u: User)
    requires IdsDistinct(users) && !IdInUse(users, u.userID)
    ensures IdsDistinct(users + [u])
  {
  }

  /** Once a user is stored, the same email is in use for every later
      registration, so a second registration with it is a conflict. */
  lemma StoredEmailInUse(users: seq<User>, u: User)
    ensures EmailInUse(users + [u], u.email)
  {
    assert (users + [u])[|users|] == u;
  }

  /** The collection `myCollectionMyDBClass`, with the log of the calls the
      handler has made on it. */
  class UserCollection {
    const Hash: string -> string
    var users: seq<User>
    var log: seq<DbOp>

    /** Emails and user identifiers are each unique among stored users. */
    predicate Valid()
      reads this
    {
      EmailsDistinct(users) && IdsDistinct(users)
    }

    constructor (hash: string -> string)
      ensures Valid() && Hash == hash && users == [] && log == []
    {
      Hash := hash;
      users := [];
      log := [];
    }

    /** `POST`: the picture check, then the email lookup, then one insert. */
    method Register(request: Request, freshId: string, now: nat) returns (reply: Reply)
      requires Valid()
      requires PictureAccepted(request.profilePicture) && !EmailInUse(users, request.email) ==>
        !IdInUse(users, freshId)
      modifies this`users, this`log
      ensures Valid()
      ensures !PictureAccepted(request.profilePicture) ==>
        reply == InvalidPicture && users == old(users) && log == old(log)
      ensures PictureAccepted(request.profilePicture) && EmailInUse(old(users), request.email) ==>
        && reply == EmailRegistered
        && users == old(users)
        && log == old(log) + [FindOne(request.email)]
      ensures PictureAccepted(request.profilePicture) && !EmailInUse(old(users), request.email) ==>
        var u := User(freshId, request.firstName, request.lastName, request.email,
                      Hash(request.password), request.contact, request.profilePicture, now);
        && reply == Created(freshId)
        && users == old(users) + [u]
        && log == old(log) + [FindOne(request.email), InsertOne(u)]
    {
      if !PictureAccepted(request.profilePicture) {
        return InvalidPicture;
      }
      log := log + [FindOne(request.email)];
      if EmailInUse(users, request.email) {
        return EmailRegistered;
      }
      var hashed := Hash(request.password);
      var u := User(freshId, request.firstName, request.lastName, request.email,
                    hashed, request.contact, request.profilePicture, now);
      AppendKeepsEmailsDistinct(users, u);
      AppendKeepsIdsDistinct(users, u);
      users := users + [u];
      log := log + [InsertOne(u)];
      reply := Created(freshId);
    }
  }

  /** Two registrations with the same email, one after the other, on an
      empty collection: the first creates the user, the second is a
      conflict, and exactly one user is stored. Neither password is
      checked for strength. */
  method RegisterTwice(hash: string -> string, first: Request, second: Request,
                       id1: string, id2: string, now: nat)
    returns (reply1: Reply, reply2: Reply, stored: seq<User>)
    requires first.email == second.email
    requires PictureAccepted(first.profilePicture) && PictureAccepted(second.profilePicture)
    ensures reply1 == Created(id1) && Status(reply2) == 409
    ensures |stored| == 1 && stored[0].userID == id1 && stored[0].password == hash(first.password)
  {
    var collection := new UserCollection(hash);
    reply1 := collection.Register(first, id1, now);
    StoredEmailInUse([], collection.users[0]);
    assert collection.users == [] + [collection.users[0]];
    reply2 := collection.Register(second, id2, now);
    stored := collection.users;
  }
}
