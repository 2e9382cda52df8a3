/** The account rules that js/admin.js and js/admin-users.js both carry:
    which users the tables list, which devices may still be assigned, and
    how the create-user form and the delete button change the `users` table. */
module Accounts {
  import opened Wrappers
  import opened Text
  import opened Seqs
  import opened Records

  predicate IsAppUser(u: User) {
    u.role != Some("admin")
  }

  /** `users.filter(u => u.role !== 'admin')`. */
  function AppUsers(users: seq<User>): (r: seq<User>)
    ensures IsSubseq(r, users)
    ensures forall u | u in r :: u in users && u.role != Some("admin")
    ensures forall u | u in users && u.role != Some("admin") :: u in r
    ensures forall u :: multiset(r)[u] == if u.role != Some("admin") then multiset(users)[u] else 0
  {
    FilterIsSubseq(users, IsAppUser);
    FilterMembers(users, IsAppUser);
    FilterMultiset(users, IsAppUser);
    Filter(users, IsAppUser)
  }

  /** `users.map(u => u.deviceCode)`. */
  function AssignedCodes(users: seq<User>): (codes: seq<Option<string>>)
    ensures |codes| == |users|
    ensures forall i :: 0 <= i < |users| ==> codes[i] == users[i].deviceCode
  {
    if users == [] then [] else [users[0].deviceCode] + AssignedCodes(users[1..])
  }

  /** The device filter of the create-user form: approved, and its code not
      among the assigned codes. */
  function Unassigned(users: seq<User>): Device -> bool {
    (d: Device) => d.status == Some("approved") && d.code !in AssignedCodes(users)
  }

  /** The devices offered when creating a user: exactly the approved devices
      whose code is no user's device code, in table order. */
  function AvailableDevices(devices: seq<Device>, users: seq<User>): (r: seq<Device>)
    ensures IsSubseq(r, devices)
    ensures forall d | d in r ::
      d in devices && d.status == Some("approved") && forall u | u in users :: u.deviceCode != d.code
    ensures forall d | d in devices && d.status == Some("approved") && (forall u | u in users :: u.deviceCode != d.code) ::
      d in r
    ensures forall d :: multiset(r)[d] ==
               if d.status == Some("approved") && (forall u | u in users :: u.deviceCode != d.code) then multiset(devices)[d] else 0
  {
    var codes := AssignedCodes(users);
    assert forall d: Device :: d.code in codes <==> exists u :: u in users && u.deviceCode == d.code by {
      forall d: Device ensures d.code in codes <==> exists u :: u in users && u.deviceCode == d.code {
        if d.code in codes {
          var i :| 0 <= i < |codes| && codes[i] == d.code;
          assert users[i] in users;
        }
        if exists u :: u in users && u.deviceCode == d.code {
          var u :| u in users && u.deviceCode == d.code;
          var i :| 0 <= i < |users| && users[i] == u;
          assert codes[i] == d.code;
        }
      }
    }
    FilterIsSubseq(devices, Unassigned(users));
    FilterMembers(devices, Unassigned(users));
    FilterMultiset(devices, Unassigned(users));
    Filter(devices, Unassigned(users))
  }

  /** The same test stated on the `users` table itself. */
  predicate IsAvailable(d: Device, users: map<string, User>) {
    d.status == Some("approved") && forall k | k in users :: users[k].deviceCode != d.code
  }

  /** No user of the table holds `code` exactly when no value `Object.values` yields does. */
  lemma UnusedCodeOfTable(users: map<string, User>, userOrder: seq<string>, code: Option<string>)
    requires Enumerates(userOrder, users)
    ensures (forall u | u in Values(users, userOrder) :: u.deviceCode != code)
        <==> (forall k | k in users :: users[k].deviceCode != code)
  {
    ValuesMembers(users, userOrder);
    var us := Values(users, userOrder);
    if forall u | u in us :: u.deviceCode != code {
      forall k | k in users ensures users[k].deviceCode != code {
        assert users[k] in users.Values;
      }
    }
    if forall k | k in users :: users[k].deviceCode != code {
      forall u | u in us ensures u.deviceCode != code {
        assert u in users.Values;
      }
    }
  }

  /** Read over `Object.values` of the two tables, the offered devices are the
      available ones. */
  lemma AvailableDevicesOfTables(devices: map<string, Device>, deviceOrder: seq<string>,
                                 users: map<string, User>, userOrder: seq<string>)
    requires Enumerates(deviceOrder, devices) && Enumerates(userOrder, users)
    ensures forall d | d in AvailableDevices(Values(devices, deviceOrder), Values(users, userOrder)) ::
      d in devices.Values && IsAvailable(d, users)
    ensures forall d | d in devices.Values && IsAvailable(d, users) ::
      d in AvailableDevices(Values(devices, deviceOrder), Values(users, userOrder))
    ensures forall d :: multiset(AvailableDevices(Values(devices, deviceOrder), Values(users, userOrder)))[d] ==
               if IsAvailable(d, users) then multiset(Values(devices, deviceOrder))[d] else 0
  {
    ValuesMembers(devices, deviceOrder);
    var ds, us := Values(devices, deviceOrder), Values(users, userOrder);
    var r := AvailableDevices(ds, us);
    forall d | d in r ensures d in devices.Values && IsAvailable(d, users) {
      UnusedCodeOfTable(users, userOrder, d.code);
    }
    forall d | d in devices.Values && IsAvailable(d, users) ensures d in r {
      UnusedCodeOfTable(users, userOrder, d.code);
    }
    forall d ensures multiset(r)[d] == if IsAvailable(d, users) then multiset(ds)[d] else 0 {
      UnusedCodeOfTable(users, userOrder, d.code);
    }
  }

  datatype CreateError = MissingField | UserExists

  /** The record the form stores: `{username, password, deviceCode, role: 'user', createdAt}`,
      with `createdAt` the store's timestamp of the write. */
  function NewUser(username: string, password: string, deviceCode: string, createdAt: int): (u: User)
    ensures u.username == Some(username) && u.password == Some(password) && u.deviceCode == Some(deviceCode)
    ensures u.role == Some("user") && IsAppUser(u)
    ensures u.createdAt == Some(createdAt)
  {
    User(Some(username), Some(password), Some(deviceCode), Some("user"), Some(createdAt))
  }

  /** The create-user submit handler, as the effect of its write on the
      `users` table: every field required after trimming, no record stored
      under that exact (case-sensitive) key, otherwise the new record goes
      under the trimmed username and nothing else changes. */
  function CreateUser(users: map<string, User>, usernameInput: string, passwordInput: string,
                      deviceCode: string, createdAt: int): (r: Result<map<string, User>, CreateError>)
    ensures r == Err(MissingField) <==> Trim(usernameInput) == "" || Trim(passwordInput) == "" || deviceCode == ""
    ensures r == Err(UserExists) <==>
      Trim(usernameInput) != "" && Trim(passwordInput) != "" && deviceCode != "" && Trim(usernameInput) in users
    ensures r.Ok? ==>
      var name := Trim(usernameInput);
      && r.value.Keys == users.Keys + {name}
      && r.value[name] == NewUser(name, Trim(passwordInput), deviceCode, createdAt)
      && forall k | k in users :: r.value[k] == users[k]
  {
    var username, password := Trim(usernameInput), Trim(passwordInput);
    if username == "" || password == "" || deviceCode == "" then Err(MissingField)
    else if username in users then Err(UserExists)
    else Ok(users[username := NewUser(username, password, deviceCode, createdAt)])
  }

  /** Deleting the user just created gives back the table as it was. */
  lemma CreateThenDeleteRestores(users: map<string, User>, usernameInput: string, passwordInput: string,
                                 deviceCode: string, createdAt: int)
    requires CreateUser(users, usernameInput, passwordInput, deviceCode, createdAt).Ok?
    ensures RemoveKey(CreateUser(users, usernameInput, passwordInput, deviceCode, createdAt).value, Trim(usernameInput)) == users
  {
    var m := CreateUser(users, usernameInput, passwordInput, deviceCode, createdAt).value;
    assert RemoveKey(m, Trim(usernameInput)).Keys == users.Keys;
  }

  /** A created user takes its device out of the available list and leaves
      every other device's availability as it was. */
  lemma CreateUserClaimsDevice(users: map<string, User>, usernameInput: string, passwordInput: string,
                               deviceCode: string, createdAt: int, d: Device)
    requires CreateUser(users, usernameInput, passwordInput, deviceCode, createdAt).Ok?
    ensures var m := CreateUser(users, usernameInput, passwordInput, deviceCode, createdAt).value;
      && (d.code == Some(deviceCode) ==> !IsAvailable(d, m))
      && (d.code != Some(deviceCode) ==> (IsAvailable(d, m) <==> IsAvailable(d, users)))
  {
    var m := CreateUser(users, usernameInput, passwordInput, deviceCode, createdAt).value;
    var name := Trim(usernameInput);
    assert name in m && m[name].deviceCode == Some(deviceCode);
    if d.code != Some(deviceCode) && IsAvailable(d, users) {
      forall k | k in m ensures m[k].deviceCode != d.code {
        if k != name { assert k in users; }
      }
    }
  }

  /** Deleting the only user that holds a device makes an approved device
      available again. */
  lemma DeleteUserFreesDevice(users: map<string, User>, username: string, d: Device)
    requires d.status == Some("approved")
    requires forall k | k in users && k != username :: users[k].deviceCode != d.code
    ensures IsAvailable(d, RemoveKey(users, username))
  {
  }

  /** The names `obj[name]` finds on every plain JavaScript object, through
      `Object.prototype`. */
  const PrototypeMembers: set<string> := {
    "constructor", "hasOwnProperty", "isPrototypeOf", "propertyIsEnumerable",
    "toLocaleString", "toString", "valueOf", "__proto__",
    "__defineGetter__", "__defineSetter__", "__lookupGetter__", "__lookupSetter__"
  }

  /** `usersData[username]` is truthy for a stored user and also for an
      inherited `Object.prototype` member. */
  predicate ExistsAsWritten(users: map<string, User>, username: string) {
    username in users || username in PrototypeMembers
  }

  /** The submit handler as written, with its truthiness test for an existing user. */
  function CreateUserAsWritten(users: map<string, User>, usernameInput: string, passwordInput: string,
                               deviceCode: string, createdAt: int): (r: Result<map<string, User>, CreateError>)
    ensures r == Err(MissingField) <==> Trim(usernameInput) == "" || Trim(passwordInput) == "" || deviceCode == ""
    ensures r == Err(UserExists) <==>
      Trim(usernameInput) != "" && Trim(passwordInput) != "" && deviceCode != "" && ExistsAsWritten(users, Trim(usernameInput))
    ensures r.Ok? ==> r == CreateUser(users, usernameInput, passwordInput, deviceCode, createdAt)
    ensures Trim(usernameInput) in PrototypeMembers ==> r.Err?
  {
    var username, password := Trim(usernameInput), Trim(passwordInput);
    if username == "" || password == "" || deviceCode == "" then Err(MissingField)
    else if ExistsAsWritten(users, username) then Err(UserExists)
    else Ok(users[username := NewUser(username, password, deviceCode, createdAt)])
  }

  /** The form as written refuses a username that names an `Object.prototype`
      member (such as "toString") as already taken, although no user is stored
      under it, where `CreateUser` stores the new user. */
  lemma PrototypeNameRefused(users: map<string, User>, username: string, passwordInput: string,
                             deviceCode: string, createdAt: int)
    requires username in PrototypeMembers && username !in users
    requires username != "" && !IsSpace(username[0]) && !IsSpace(username[|username| - 1])
    requires passwordInput != "" && !IsSpace(passwordInput[0]) && deviceCode != ""
    ensures CreateUserAsWritten(users, username, passwordInput, deviceCode, createdAt) == Err(UserExists)
    ensures CreateUser(users, username, passwordInput, deviceCode, createdAt).Ok?
  {
    TrimUnchanged(username);
    TrimEmpty(passwordInput);
    assert ExistsAsWritten(users, username);
  }

  /** "toString" is such a username: an inherited member with no white space
      at either end. */
  lemma ToStringIsInherited()
    ensures var name := "toString";
      name in PrototypeMembers && !IsSpace(name[0]) && !IsSpace(name[|name| - 1])
  {
  }
}
