/** User accounts: the salted password-hash format, the order of the registration and login
    checks, and the bounded username-collision loop of OAuth sign-up. The users table is a
    sequence of rows with a unique username; the key-derivation function and the random
    salt are parameters. */
module UserAuth {
  import opened Wrappers
  import opened Text

  newtype byte = x: int | 0 <= x < 256

  const SaltBytes := 32

  /** The 32 bytes `os.urandom(32)` returns. */
  type Salt = s: seq<byte> | |s| == SaltBytes witness seq(SaltBytes, _ => 0)

  /** `pbkdf2_hmac('sha256', ...)` over the password's UTF-8 bytes: some function of the
      password and the salt. */
  type Kdf = (string, seq<byte>) -> seq<byte>

  // ---------------------------------------------------------------------------
  // Hexadecimal text

  function HexDigit(n: nat): (c: char)
    requires n < 16
  {
    if n < 10 then ('0' as int + n) as char else ('a' as int + n - 10) as char
  }

  /** The value of a hexadecimal digit of either case. */
  function HexValue(c: char): (v: Option<nat>)
    ensures v.Some? ==> v.value < 16
  {
    if '0' <= c <= '9' then Some(c as int - '0' as int)
    else if 'a' <= c <= 'f' then Some(c as int - 'a' as int + 10)
    else if 'A' <= c <= 'F' then Some(c as int - 'A' as int + 10)
    else None
  }

  lemma HexValueOfDigit(n: nat)
    requires n < 16
    ensures HexValue(HexDigit(n)) == Some(n)
  {
  }

  /** `bytes.hex()`: two lower-case digits per byte. */
  function Hex(bs: seq<byte>): (s: string)
    ensures |s| == 2 * |bs|
  {
    if bs == [] then ""
    else [HexDigit(bs[0] as nat / 16), HexDigit(bs[0] as nat % 16)] + Hex(bs[1..])
  }

  /** The white space `bytes.fromhex` skips before a pair of digits (C `isspace` on ASCII). */
  predicate HexSpace(c: char) {
    c == ' ' || c == '\t' || c == '\n' || c == '\r' || c == '\U{B}' || c == '\U{C}'
  }

  /** The position of the first non-ASCII character, or `|s|` when there is none. */
  function FirstNonAscii(s: string): (k: nat)
    ensures k <= |s|
    ensures forall j :: 0 <= j < k ==> s[j] as int < 128
    ensures k < |s| ==> s[k] as int >= 128
  {
    if s == [] then 0
    else if s[0] as int >= 128 then 0
    else 1 + FirstNonAscii(s[1..])
  }

  /** The pairs of ASCII digits from position `i` on, with white space skipped before each pair;
      `Failure(k)` names the position of the first character that is not a digit, which is `|s|`
      when the text ends inside a pair. */
  function FromHexAt(s: string, i: nat): (r: Result<seq<byte>, nat>)
    requires i <= |s|
    ensures r.Success? ==> 2 * |r.value| <= |s| - i
    ensures r.Failure? ==> i <= r.error <= |s| && (r.error == |s| || HexValue(s[r.error]).None?)
    decreases |s| - i
  {
    if i == |s| then Success([])
    else if HexSpace(s[i]) then FromHexAt(s, i + 1)
    else if HexValue(s[i]).None? then Failure(i)
    else if i + 1 == |s| then Failure(i + 1)
    else if HexValue(s[i + 1]).None? then Failure(i + 1)
    else match FromHexAt(s, i + 2)
      case Failure(k) => Failure(k)
      case Success(rest) => Success([(HexValue(s[i]).value * 16 + HexValue(s[i + 1]).value) as byte] + rest)
  }

  /** `bytes.fromhex(s)`: a text with a non-ASCII character fails at the first such character;
      otherwise the pairs are read from the start. `Failure(k)` is the `ValueError` at position `k`. */
  function FromHex(s: string): (r: Result<seq<byte>, nat>)
    ensures r.Success? ==> 2 * |r.value| <= |s|
    ensures r.Failure? ==> r.error <= |s| && (r.error == |s| || HexValue(s[r.error]).None?)
    ensures FirstNonAscii(s) < |s| ==> r == Failure(FirstNonAscii(s))
  {
    var k := FirstNonAscii(s);
    if k < |s| then Failure(k) else FromHexAt(s, 0)
  }

  /** A bad second digit, a text ending inside a pair and an early non-ASCII character are each
      reported at their position; white space between pairs is skipped. */
  lemma FromHexPositions()
    ensures FromHex("0g") == Failure(1)
    ensures FromHex("abc") == Failure(3)
    ensures FromHex("zz\U{E9}") == Failure(2)
    ensures FromHex("ab cd") == Success([0xab, 0xcd])
  {
    assert FromHexAt("0g", 0) == Failure(1);
    assert FromHexAt("abc", 2) == Failure(3);
    var t := "ab cd";
    assert FromHexAt(t, 5) == Success([]);
    assert [(12 * 16 + 13) as byte] + [] == [0xcd];
    assert [(10 * 16 + 11) as byte] + [0xcd] == [0xab, 0xcd];
    assert HexValue('c') == Some(12) && HexValue('d') == Some(13);
    assert HexValue('a') == Some(10) && HexValue('b') == Some(11);
    assert FromHexAt(t, 3) == Success([0xcd]);
    assert FromHexAt(t, 2) == Success([0xcd]);
    assert FromHexAt(t, 0) == Success([0xab, 0xcd]);
  }

  /** The digits of `.hex()` are ASCII. */
  lemma {:induction false} HexAscii(bs: seq<byte>)
    ensures FirstNonAscii(Hex(bs)) == |Hex(bs)|
  {
    if bs != [] {
      HexAscii(bs[1..]);
      var h := Hex(bs);
      assert h[2..] == Hex(bs[1..]);
      assert h[1..][1..] == h[2..];
    }
  }

  /** Reading pairs from a position where the hexadecimal text of some bytes begins gives them. */
  lemma {:induction false} FromHexAtOfHex(s: string, i: nat, bs: seq<byte>)
    requires i <= |s| && s[i..] == Hex(bs)
    ensures FromHexAt(s, i) == Success(bs)
    decreases bs
  {
    if bs != [] {
      var b := bs[0] as nat;
      HexValueOfDigit(b / 16);
      HexValueOfDigit(b % 16);
      assert s[i] == HexDigit(b / 16) && s[i + 1] == HexDigit(b % 16);
      assert s[i + 2..] == Hex(bs[1..]) by {
        assert s[i + 2..] == s[i..][2..];
      }
      FromHexAtOfHex(s, i + 2, bs[1..]);
      assert bs == [bs[0]] + bs[1..];
    }
  }

  /** Reading back the hexadecimal text of some bytes gives the bytes. */
  lemma FromHexOfHex(bs: seq<byte>)
    ensures FromHex(Hex(bs)) == Success(bs)
  {
    HexAscii(bs);
    FromHexAtOfHex(Hex(bs), 0, bs);
  }

  lemma HexInjective(a: seq<byte>, b: seq<byte>)
    requires Hex(a) == Hex(b)
    ensures a == b
  {
    FromHexOfHex(a);
    FromHexOfHex(b);
  }

  // ---------------------------------------------------------------------------
  // Password hashes

  /** `hash_password`: the salt's 64 hex digits followed by the hex digits of the derived key. */
  function HashPassword(password: string, salt: Salt, kdf: Kdf): (h: string)
    ensures |h| == 2 * SaltBytes + 2 * |kdf(password, salt)|
    ensures h[..2 * SaltBytes] == Hex(salt) && h[2 * SaltBytes..] == Hex(kdf(password, salt))
  {
    Hex(salt) + Hex(kdf(password, salt))
  }

  /** `s[n:]`. */
  function Drop(s: string, n: nat): (r: string)
    ensures |s| <= n ==> r == ""
    ensures n < |s| ==> r == s[n..]
  {
    if |s| <= n then "" else s[n..]
  }

  const NoneSubscriptText := "'NoneType' object is not subscriptable"
  const FromHexErrorText := "non-hexadecimal number found in fromhex() arg at position "

  /** `verify_password`: the salt is read from the first 64 characters and the rest is the
      expected key. A missing hash or malformed salt raises, given as `Failure`. */
  function VerifyPassword(stored: Option<string>, provided: string, kdf: Kdf): (r: Result<bool, string>)
    ensures stored.None? ==> r == Failure(NoneSubscriptText)
    ensures stored.Some? && FromHex(Take(stored.value, 2 * SaltBytes)).Failure? ==>
              r == Failure(FromHexErrorText + NatToString(FromHex(Take(stored.value, 2 * SaltBytes)).error))
    ensures stored.Some? && FromHex(Take(stored.value, 2 * SaltBytes)).Success? ==>
              r == Success(Hex(kdf(provided, FromHex(Take(stored.value, 2 * SaltBytes)).value)) == Drop(stored.value, 2 * SaltBytes))
  {
    match stored
    case None => Failure(NoneSubscriptText)
    case Some(s) =>
      match FromHex(Take(s, 2 * SaltBytes))
      case Failure(position) => Failure(FromHexErrorText + NatToString(position))
      case Success(salt) => Success(Hex(kdf(provided, salt)) == Drop(s, 2 * SaltBytes))
  }

  /** A stored hash verifies against its own password (the derivation is deterministic), and
      against another password exactly when the derived keys coincide. */
  lemma VerifyHashed(p: string, q: string, salt: Salt, kdf: Kdf)
    ensures VerifyPassword(Some(HashPassword(p, salt, kdf)), p, kdf) == Success(true)
    ensures VerifyPassword(Some(HashPassword(p, salt, kdf)), q, kdf) == Success(kdf(q, salt) == kdf(p, salt))
  {
    var h := HashPassword(p, salt, kdf);
    assert Take(h, 2 * SaltBytes) == Hex(salt);
    FromHexOfHex(salt);
    assert Drop(h, 2 * SaltBytes) == Hex(kdf(p, salt));
    if Hex(kdf(q, salt)) == Hex(kdf(p, salt)) {
      HexInjective(kdf(q, salt), kdf(p, salt));
    }
  }

  // ---------------------------------------------------------------------------
  // The users table

  datatype UserRow = UserRow(
    id: nat,
    username: string,
    passwordHash: Option<string>,
    oauthProvider: Option<string>,
    oauthId: Option<string>,
    email: Option<string>,
    avatarUrl: Option<string>)

  /** The `{'id', 'username'}` dictionary handed back on success. */
  datatype UserRef = UserRef(id: nat, username: string)

  predicate Taken(rows: seq<UserRow>, username: string) {
    exists i :: 0 <= i < |rows| && rows[i].username == username
  }

  /** The row with the given username, if any. */
  function FindByUsername(rows: seq<UserRow>, username: string): (r: Option<UserRow>)
    ensures r.Some? <==> Taken(rows, username)
    ensures r.Some? ==> r.value in rows && r.value.username == username
  {
    if rows == [] then None
    else if rows[0].username == username then Some(rows[0])
    else
      var r := FindByUsername(rows[1..], username);
      assert Taken(rows, username) ==> rows[0].username == username || Taken(rows[1..], username) by {
        if Taken(rows, username) {
          var i :| 0 <= i < |rows| && rows[i].username == username;
          if i > 0 { assert rows[1..][i - 1] == rows[i]; }
        }
      }
      assert Taken(rows[1..], username) ==> Taken(rows, username) by {
        if Taken(rows[1..], username) {
          var i :| 0 <= i < |rows[1..]| && rows[1..][i].username == username;
          assert rows[i + 1] == rows[1..][i];
        }
      }
      r
  }

  /** The row linked to an OAuth account, if any. */
  function FindByOAuth(rows: seq<UserRow>, provider: string, oauthId: string): (r: Option<UserRow>)
    ensures r.Some? ==> r.value in rows && r.value.oauthProvider == Some(provider) && r.value.oauthId == Some(oauthId)
    ensures r.None? ==> forall i :: 0 <= i < |rows| ==> !(rows[i].oauthProvider == Some(provider) && rows[i].oauthId == Some(oauthId))
  {
    if rows == [] then None
    else if rows[0].oauthProvider == Some(provider) && rows[0].oauthId == Some(oauthId) then Some(rows[0])
    else
      var r := FindByOAuth(rows[1..], provider, oauthId);
      assert forall i :: 1 <= i < |rows| ==> rows[i] == rows[1..][i - 1];
      r
  }

  const EmptyFieldsMessage := "用户名和密码不能为空"
  const ShortUsernameMessage := "用户名至少需要3个字符"
  const ShortPasswordMessage := "密码至少需要6个字符"
  const RegisteredMessage := "注册成功"
  const DuplicateMessage := "用户名已存在"
  const LoggedInMessage := "登录成功"
  const BadCredentialsMessage := "用户名或密码错误"
  const LoginFailedPrefix := "登录失败: "
  const NameConflictMessage := "用户名冲突，注册失败"

  /** The checks `register_user` makes before it hashes anything or touches the table, in
      their order. */
  function RegistrationError(username: string, password: string): (e: Option<string>)
    ensures username == "" || password == "" ==> e == Some(EmptyFieldsMessage)
    ensures username != "" && password != "" && |username| < 3 ==> e == Some(ShortUsernameMessage)
    ensures username != "" && password != "" && |username| >= 3 && |password| < 6 ==> e == Some(ShortPasswordMessage)
    ensures e.None? <==> |username| >= 3 && |password| >= 6
  {
    if username == "" || password == "" then Some(EmptyFieldsMessage)
    else if |username| < 3 then Some(ShortUsernameMessage)
    else if |password| < 6 then Some(ShortPasswordMessage)
    else None
  }

  /** A login attempt's answer: success, the user, and the message. */
  datatype LoginResult = LoginResult(ok: bool, user: Option<UserRef>, message: string)

  /** `login_user` on the table `rows`. An account without a password hash (an OAuth
      account) makes the verification raise, which is reported with the `登录失败: ` prefix. */
  function Login(rows: seq<UserRow>, username: string, password: string, kdf: Kdf): (r: LoginResult)
    ensures username == "" || password == "" ==> r == LoginResult(false, None, EmptyFieldsMessage)
    ensures r.ok <==>
              && username != "" && password != ""
              && FindByUsername(rows, username).Some?
              && VerifyPassword(FindByUsername(rows, username).value.passwordHash, password, kdf) == Success(true)
    ensures r.ok ==> r.message == LoggedInMessage && r.user == Some(UserRef(FindByUsername(rows, username).value.id, username))
    ensures !r.ok ==> r.user.None?
    ensures username != "" && password != "" && FindByUsername(rows, username).None? ==> r.message == BadCredentialsMessage
    ensures username != "" && password != "" && FindByUsername(rows, username).Some? ==>
              var v := VerifyPassword(FindByUsername(rows, username).value.passwordHash, password, kdf);
              && (v == Success(false) ==> r.message == BadCredentialsMessage)
              && (v.Failure? ==> r.message == LoginFailedPrefix + v.error)
  {
    if username == "" || password == "" then LoginResult(false, None, EmptyFieldsMessage)
    else match FindByUsername(rows, username)
      case None => LoginResult(false, None, BadCredentialsMessage)
      case Some(user) =>
        match VerifyPassword(user.passwordHash, password, kdf)
        case Failure(e) => LoginResult(false, None, LoginFailedPrefix + e)
        case Success(true) => LoginResult(true, Some(UserRef(user.id, user.username)), LoggedInMessage)
        case Success(false) => LoginResult(false, None, BadCredentialsMessage)
  }

  /** A name not yet taken finds the row appended for it. */
  lemma {:induction false} FindAppended(rows: seq<UserRow>, row: UserRow)
    requires !Taken(rows, row.username)
    ensures FindByUsername(rows + [row], row.username) == Some(row)
  {
    if rows != [] {
      assert rows[0].username != row.username;
      assert (rows + [row])[1..] == rows[1..] + [row];
      FindAppended(rows[1..], row);
    }
  }

  /** The row `register_user` inserts. */
  function RegisteredRow(id: nat, username: string, password: string, salt: Salt, kdf: Kdf): UserRow {
    UserRow(id, username, Some(HashPassword(password, salt, kdf)), None, None, None, None)
  }

  /** Once registered, a user logs in with the same password, and with another password exactly
      when the two derive the same key from the stored salt. */
  lemma LoginAfterRegister(rows: seq<UserRow>, id: nat, username: string, password: string, other: string,
                           salt: Salt, kdf: Kdf)
    requires RegistrationError(username, password).None? && !Taken(rows, username)
    ensures Login(rows + [RegisteredRow(id, username, password, salt, kdf)], username, password, kdf)
            == LoginResult(true, Some(UserRef(id, username)), LoggedInMessage)
    ensures other != "" ==>
              Login(rows + [RegisteredRow(id, username, password, salt, kdf)], username, other, kdf).ok
              == (kdf(other, salt) == kdf(password, salt))
  {
    FindAppended(rows, RegisteredRow(id, username, password, salt, kdf));
    VerifyHashed(password, other, salt, kdf);
  }

  /** An account created through OAuth has no password hash, so a password login on it ends
      in the exception branch. */
  lemma OAuthAccountLogin(rows: seq<UserRow>, username: string, password: string, kdf: Kdf)
    requires username != "" && password != ""
    requires FindByUsername(rows, username).Some? && FindByUsername(rows, username).value.passwordHash.None?
    ensures Login(rows, username, password, kdf) == LoginResult(false, None, LoginFailedPrefix + NoneSubscriptText)
  {
  }

  /** `get_user_by_id`: the account with the given id (the creation time is not modelled). */
  function UserById(rows: seq<UserRow>, id: nat): (r: Option<UserRef>)
    ensures r.Some? ==> r.value.id == id && exists i :: 0 <= i < |rows| && rows[i].id == id && rows[i].username == r.value.username
    ensures r.None? ==> forall i :: 0 <= i < |rows| ==> rows[i].id != id
  {
    if rows == [] then None
    else if rows[0].id == id then Some(UserRef(id, rows[0].username))
    else
      var r := UserById(rows[1..], id);
      assert forall i :: 1 <= i < |rows| ==> rows[i] == rows[1..][i - 1];
      r
  }

  /** The table and the `AUTOINCREMENT` counter. */
  class UserStore {
    var rows: seq<UserRow>
    var nextId: nat

    ghost predicate Valid()
      reads this
    {
      && (forall i, j :: 0 <= i < j < |rows| ==> rows[i].username != rows[j].username)
      && (forall i :: 0 <= i < |rows| ==> rows[i].id < nextId)
      && (forall i, j :: 0 <= i < j < |rows| ==> rows[i].id < rows[j].id)
    }

    constructor()
      ensures Valid() && rows == [] && nextId == 1
    {
      rows := [];
      nextId := 1;
    }

    /** An `INSERT` that the unique username does not refuse. */
    method Insert(row: UserRow)
      requires Valid() && !Taken(rows, row.username) && row.id == nextId
      modifies this
      ensures Valid()
      ensures rows == old(rows) + [row] && nextId == old(nextId) + 1
    {
      rows := rows + [row];
      nextId := nextId + 1;
    }

    /** An `INSERT` that raises `IntegrityError`, changing nothing, when the username is taken. */
    method TryInsert(row: UserRow) returns (inserted: bool)
      requires Valid() && row.id == nextId
      modifies this
      ensures Valid()
      ensures inserted == !Taken(old(rows), row.username)
      ensures inserted ==> rows == old(rows) + [row] && nextId == old(nextId) + 1
      ensures !inserted ==> rows == old(rows) && nextId == old(nextId)
    {
      inserted := !Taken(rows, row.username);
      if inserted {
        Insert(row);
      }
    }

    /** `register_user`, with the salt `os.urandom` produced. */
    method RegisterUser(username: string, password: string, salt: Salt, kdf: Kdf)
      returns (ok: bool, message: string)
      requires Valid()
      modifies this
      ensures Valid()
      ensures RegistrationError(username, password).Some? ==>
        !ok && message == RegistrationError(username, password).value && rows == old(rows) && nextId == old(nextId)
      ensures RegistrationError(username, password).None? && Taken(old(rows), username) ==>
        !ok && message == DuplicateMessage && rows == old(rows) && nextId == old(nextId)
      ensures RegistrationError(username, password).None? && !Taken(old(rows), username) ==>
        && ok && message == RegisteredMessage && nextId == old(nextId) + 1
        && rows == old(rows) + [RegisteredRow(old(nextId), username, password, salt, kdf)]
    {
      var error := RegistrationError(username, password);
      if error.Some? {
        return false, error.value;
      }
      if Taken(rows, username) {
        return false, DuplicateMessage;
      }
      Insert(RegisteredRow(nextId, username, password, salt, kdf));
      return true, RegisteredMessage;
    }

    /** `get_or_create_oauth_user`: an account already linked is returned; otherwise the
        first free name among `base`, `base_1`, ..., `base_99` is inserted. */
    method GetOrCreateOAuthUser(provider: string, oauthId: string, email: Option<string>,
                                username: Option<string>, avatarUrl: Option<string>)
      returns (ok: bool, user: Option<UserRef>, message: string)
      requires Valid()
      modifies this
      ensures Valid()
      ensures FindByOAuth(old(rows), provider, oauthId).Some? ==>
        var row := FindByOAuth(old(rows), provider, oauthId).value;
        ok && user == Some(UserRef(row.id, row.username)) && message == LoggedInMessage
        && rows == old(rows) && nextId == old(nextId)
      ensures FindByOAuth(old(rows), provider, oauthId).None? ==>
        var base := BaseUsername(provider, oauthId, username);
        match FirstFree(old(rows), Candidates(base), 0)
        case Some(k) =>
          && ok && user == Some(UserRef(old(nextId), Candidate(base, k))) && message == RegisteredMessage
          && rows == old(rows) + [UserRow(old(nextId), Candidate(base, k), None, Some(provider), Some(oauthId), email, avatarUrl)]
          && nextId == old(nextId) + 1
        case None =>
          !ok && user.None? && message == NameConflictMessage && rows == old(rows) && nextId == old(nextId)
    {
      var existing := FindByOAuth(rows, provider, oauthId);
      if existing.Some? {
        return true, Some(UserRef(existing.value.id, existing.value.username)), LoggedInMessage;
      }
      var name := if username.Some? && username.value != "" then username.value
        else provider + "_user_" + Take(oauthId, 8);
      assert name == BaseUsername(provider, oauthId, username);
      ok, user, message := CreateOAuthUser(name, provider, oauthId, email, avatarUrl);
    }

    /** The insert loop of `get_or_create_oauth_user`: `baseUsername`, then `baseUsername_1`,
        ..., `baseUsername_99`, until the unique username lets one through. */
    method CreateOAuthUser(baseUsername: string, provider: string, oauthId: string, email: Option<string>,
                           avatarUrl: Option<string>)
      returns (ok: bool, user: Option<UserRef>, message: string)
      requires Valid()
      modifies this
      ensures Valid()
      ensures match FirstFree(old(rows), Candidates(baseUsername), 0)
        case Some(k) =>
          && ok && user == Some(UserRef(old(nextId), Candidate(baseUsername, k))) && message == RegisteredMessage
          && rows == old(rows) + [UserRow(old(nextId), Candidate(baseUsername, k), None, Some(provider), Some(oauthId), email, avatarUrl)]
          && nextId == old(nextId) + 1
        case None =>
          !ok && user.None? && message == NameConflictMessage && rows == old(rows) && nextId == old(nextId)
    {
      ghost var names := Candidates(baseUsername);
      var name := baseUsername;
      var counter := 1;
      while true
        invariant 1 <= counter <= 100
        invariant name == Candidate(baseUsername, counter - 1)
        invariant rows == old(rows) && nextId == old(nextId)
        invariant FirstFree(old(rows), names, 0) == FirstFree(old(rows), names, counter - 1)
        decreases 100 - counter
      {
        assert name == names[counter - 1];
        var id := nextId;
        var inserted := TryInsert(UserRow(id, name, None, Some(provider), Some(oauthId), email, avatarUrl));
        if inserted {
          assert FirstFree(old(rows), names, 0) == Some(counter - 1);
          return true, Some(UserRef(id, name)), RegisteredMessage;
        }
        name := baseUsername + "_" + NatToString(counter);
        counter := counter + 1;
        if counter > 100 {
          return false, None, NameConflictMessage;
        }
      }
    }
  }

  /** The name an OAuth account asks for: the given one, or `provider_user_` followed by the
      first eight characters of the account id. */
  function BaseUsername(provider: string, oauthId: string, username: Option<string>): (b: string)
    ensures username.Some? && username.value != "" ==> b == username.value
    ensures username.None? || username.value == "" ==> IsPrefix(provider + "_user_", b) && |b| <= |provider| + 6 + 8
  {
    if username.Some? && username.value != "" then username.value
    else
      var b := provider + "_user_" + Take(oauthId, 8);
      assert b[..|provider + "_user_"|] == provider + "_user_";
      b
  }

  /** The name tried at the `k`-th insert (counting from 0). */
  function Candidate(base: string, k: nat): string {
    if k == 0 then base else base + "_" + NatToString(k)
  }

  const MaxOAuthInserts := 100

  /** The names the loop tries, in order: `base`, `base_1`, ..., `base_99`. */
  function Candidates(base: string): (names: seq<string>)
    ensures |names| == MaxOAuthInserts
    ensures forall k :: 0 <= k < MaxOAuthInserts ==> names[k] == Candidate(base, k)
  {
    seq(MaxOAuthInserts, k requires 0 <= k => Candidate(base, k))
  }

  /** The position of the first name from `k` on that is not taken, if there is one. */
  function FirstFree(rows: seq<UserRow>, names: seq<string>, k: nat): (r: Option<nat>)
    requires k <= |names|
    ensures r.Some? ==>
              && k <= r.value < |names| && !Taken(rows, names[r.value])
              && forall j :: k <= j < r.value ==> Taken(rows, names[j])
    ensures r.None? ==> forall j :: k <= j < |names| ==> Taken(rows, names[j])
    decreases |names| - k
  {
    if k == |names| then None
    else if !Taken(rows, names[k]) then Some(k)
    else FirstFree(rows, names, k + 1)
  }
}
