/**
 * `UserMapper`: users to response DTOs, and creation requests to new users.
 * The generated methods return null for a null source. The password encoder
 * is a parameter.
 */
module UserMapping {
  import opened Optional

  /** How a user authenticates. */
  datatype AuthenticationMethod = DATABASE | LDAP

  /** A role granted to a user. */
  datatype Role = Role(name: string)

  /** The `User` entity, restricted to the fields the mappings touch. */
  datatype User = User(
    id: Option<int>,
    username: Option<string>,
    firstname: Option<string>,
    lastname: Option<string>,
    email: Option<string>,
    password: Option<string>,
    authenticationMethod: Option<AuthenticationMethod>,
    roles: Option<seq<Role>>)

  /** `UserResponseDto`: the user as shown to clients, with a full name and without its password. */
  datatype UserResponseDto = UserResponseDto(
    id: Option<int>,
    username: Option<string>,
    firstname: Option<string>,
    lastname: Option<string>,
    fullname: string,
    email: Option<string>)

  /** `UserRequestDto`: what a client sends to create a user. */
  datatype UserRequestDto = UserRequestDto(
    username: Option<string>,
    firstname: Option<string>,
    lastname: Option<string>,
    email: Option<string>,
    password: string)

  /** `passwordEncoder.encode`. */
  type PasswordEncode = string -> string

  /** How `String.format("%s", x)` renders a string that may be null. */
  function FormatArg(s: Option<string>): (r: string)
    ensures s.Some? ==> r == s.value
    ensures s.None? ==> r == "null"
  {
    if s.Some? then s.value else "null"
  }

  /** `String.format("%s %s", firstname, lastname)`. */
  function Fullname(firstname: Option<string>, lastname: Option<string>): (r: string)
    ensures |r| == |FormatArg(firstname)| + 1 + |FormatArg(lastname)|
    ensures r[..|FormatArg(firstname)|] == FormatArg(firstname)
    ensures r[|FormatArg(firstname)|] == ' '
    ensures r[|FormatArg(firstname)| + 1..] == FormatArg(lastname)
  {
    FormatArg(firstname) + " " + FormatArg(lastname)
  }

  /** A first name without a space is recovered from the full name: up to its first space. */
  lemma {:induction false} FullnameSplitsAtFirstSpace(firstname: string, lastname: Option<string>)
    requires forall i :: 0 <= i < |firstname| ==> firstname[i] != ' '
    ensures var r := Fullname(Some(firstname), lastname);
            && (forall i :: 0 <= i < |firstname| ==> r[i] != ' ')
            && r[|firstname|] == ' '
            && r[..|firstname|] == firstname
  {
    var r := Fullname(Some(firstname), lastname);
    forall i | 0 <= i < |firstname| ensures r[i] != ' ' {
      assert r[..|firstname|][i] == r[i];
    }
  }

  /** `toUserDtoDefault`. */
  function ToUserDtoDefault(user: Option<User>): (r: Option<UserResponseDto>)
    ensures r.Some? <==> user.Some?
    ensures user.Some? ==>
              var u, d := user.value, r.value;
              && d.id == u.id && d.username == u.username && d.email == u.email
              && d.firstname == u.firstname && d.lastname == u.lastname
              && (u.firstname.Some? && u.lastname.Some? ==> d.fullname == u.firstname.value + " " + u.lastname.value)
              && d.fullname == FormatArg(u.firstname) + " " + FormatArg(u.lastname)
  {
    match user
    case None => None
    case Some(u) => Some(UserResponseDto(u.id, u.username, u.firstname, u.lastname,
                                         Fullname(u.firstname, u.lastname), u.email))
  }

  /** The element-wise part of `toUserDtosDefault`. */
  function MapUsers(users: seq<Option<User>>): (r: seq<Option<UserResponseDto>>)
    ensures |r| == |users|
    ensures forall i :: 0 <= i < |users| ==> r[i] == ToUserDtoDefault(users[i])
    decreases |users|
  {
    if |users| == 0 then [] else [ToUserDtoDefault(users[0])] + MapUsers(users[1..])
  }

  /** `toUserDtosDefault`: a null list maps to null, otherwise element by element in order. */
  function ToUserDtosDefault(users: Option<seq<Option<User>>>): (r: Option<seq<Option<UserResponseDto>>>)
    ensures r.Some? <==> users.Some?
    ensures users.Some? ==> r.value == MapUsers(users.value)
  {
    if users.None? then None else Some(MapUsers(users.value))
  }

  /**
   * `toNewUser`: the request's fields, the given authentication method, the
   * encoded password, no roles and no id.
   */
  function ToNewUser(encode: PasswordEncode, dto: UserRequestDto, authenticationMethod: AuthenticationMethod): (u: User)
    ensures u.password == Some(encode(dto.password))
    ensures encode(dto.password) != dto.password ==> u.password != Some(dto.password)
    ensures u.authenticationMethod == Some(authenticationMethod)
    ensures u.roles.None? && u.id.None?
    ensures u.username == dto.username && u.firstname == dto.firstname
    ensures u.lastname == dto.lastname && u.email == dto.email
  {
    User(None, dto.username, dto.firstname, dto.lastname, dto.email,
         Some(encode(dto.password)), Some(authenticationMethod), None)
  }
}
