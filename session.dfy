/** The browser's `localStorage` as the screens use it: a finite map from
    key to stored item, of which the session occupies the "token" and
    "user" keys. */
module Session {
  import opened Common
  import opened Strings

  const TokenKey := "token"
  const UserKey := "user"

  /** A stored item: a plain string (the token), or the JSON text of a user
      object, kept here as the object it encodes. */
  datatype Item = Text(text: string) | UserJson(user: UserRecord)

  /** A stored item read for truthiness: `localStorage.getItem` gives null
      for a missing key, and only the empty string is a falsy string. The
      JSON text of an object is never empty. */
  predicate Present(items: map<string, Item>, key: string) {
    key in items && items[key] != Text("")
  }

  /** The mount-time check of the landing page: both keys hold something. */
  predicate IsAuthenticated(items: map<string, Item>) {
    Present(items, UserKey) && Present(items, TokenKey)
  }

  /** The storage after `removeItem("token")` and `removeItem("user")`. */
  function WithoutSession(items: map<string, Item>): (r: map<string, Item>)
    ensures TokenKey !in r && UserKey !in r
    ensures forall k :: k in items && k != TokenKey && k != UserKey ==> k in r && r[k] == items[k]
    ensures forall k :: k in r ==> k in items
  {
    items - {TokenKey, UserKey}
  }

  /** The storage after `setItem("user", JSON.stringify(user))` and
      `setItem("token", token)`. */
  function WithSession(items: map<string, Item>, user: UserRecord, token: string): (r: map<string, Item>)
    ensures UserKey in r && r[UserKey] == UserJson(user)
    ensures TokenKey in r && r[TokenKey] == Text(token)
    ensures forall k :: k in items && k != TokenKey && k != UserKey ==> k in r && r[k] == items[k]
    ensures r.Keys == items.Keys + {TokenKey, UserKey}
  {
    items[UserKey := UserJson(user)][TokenKey := Text(token)]
  }

  /** Token and user are set together and cleared together: after a sign-in
      with a non-empty token the session is present; after clearing it is
      gone, and clearing undoes the sign-in entirely. */
  lemma SessionLifecycle(items: map<string, Item>, user: UserRecord, token: string)
    ensures token != "" ==> IsAuthenticated(WithSession(items, user, token))
    ensures !IsAuthenticated(WithoutSession(items))
    ensures !Present(WithoutSession(items), TokenKey) && !Present(WithoutSession(items), UserKey)
    ensures WithoutSession(WithSession(items, user, token)) == WithoutSession(items)
  {
    assert TokenKey != UserKey;
    var a := WithoutSession(WithSession(items, user, token));
    var b := WithoutSession(items);
    assert a.Keys == b.Keys;
  }

  /** `JSON.parse(localStorage.getItem("user") || "{}")`: a missing or empty
      item reads as an empty object and a stored user as itself; None when
      the item is other text, on which `parse` throws. */
  function ParsedStoredUser(items: map<string, Item>): (u: Option<UserRecord>)
    ensures !Present(items, UserKey) ==> u == Some(map[])
    ensures Present(items, UserKey) && items[UserKey].UserJson? ==> u == Some(items[UserKey].user)
    ensures u.None? <==> Present(items, UserKey) && items[UserKey].Text?
  {
    if !Present(items, UserKey) then Some(map[])
    else match items[UserKey]
      case UserJson(user) => Some(user)
      case Text(_) => None
  }

  /** A three-digit status is written with exactly three digits, and they
      read "401" only for 401. */
  lemma ThreeDigitNumeral(status: nat)
    requires 100 <= status <= 999
    ensures |NatToString(status)| == 3
    ensures NatToString(status) == "401" <==> status == 401
  {
    var a, b, c := status / 100, status / 10 % 10, status % 10;
    assert status / 10 / 10 == a;
    assert NatToString(status / 10) == ['0' + a as char] + ['0' + b as char];
    assert NatToString(status) == ['0' + a as char, '0' + b as char, '0' + c as char];
    if NatToString(status) == "401" {
      assert a == 4 && b == 0 && c == 1;
      assert status == 10 * (status / 10) + c;
      assert status / 10 == 10 * a + b;
    }
  }

  /** After a prefix without '4', "401" can only occur as the three
      characters that follow it. */
  lemma OccurrenceAfterPrefix(p: string, d: string, i: int)
    requires '4' !in p && |d| == 3
    requires OccursAt(p + d, "401", i)
    ensures i == |p| && d == "401"
  {
    var msg := p + d;
    assert msg[i] == msg[i..i + 3][0] == '4';
    if i < |p| {
      assert false;
    }
    assert msg[i..i + 3] == d;
  }

  /** The catch blocks of the weekly review and the settings fetch wipe the
      whole storage when the error message mentions "401". For an error
      status the message is "HTTP error! status: N", which mentions "401"
      only when N is 401 itself; that status is handled before the throw, so
      the wipe is reached only by network or body-parsing errors. */
  lemma StatusMessageMentions401(status: nat)
    requires 100 <= status <= 999
    ensures Contains(HttpErrorMessage(status), "401") <==> status == 401
  {
    var prefix := "HTTP error! status: ";
    var digits := NatToString(status);
    var msg := HttpErrorMessage(status);
    ThreeDigitNumeral(status);
    assert msg == prefix + digits;
    assert '4' !in prefix;
    ContainsIffOccurs(msg, "401");
    if status == 401 {
      assert msg[|prefix|..|prefix| + 3] == digits;
      assert OccursAt(msg, "401", |prefix|);
    }
    if i :| OccursAt(msg, "401", i) {
      OccurrenceAfterPrefix(prefix, digits, i);
    }
  }

  class LocalStorage {
    var items: map<string, Item>

    constructor (initial: map<string, Item>)
      ensures items == initial
    {
      items := initial;
    }

    /** `localStorage.getItem(key)`; None stands for null. */
    method GetItem(key: string) returns (v: Option<Item>)
      ensures v.Some? <==> key in items
      ensures v.Some? ==> v.value == items[key]
    {
      v := if key in items then Some(items[key]) else None;
    }

    method SetItem(key: string, value: Item)
      modifies this
      ensures items == old(items)[key := value]
    {
      items := items[key := value];
    }

    method RemoveItem(key: string)
      modifies this
      ensures items == old(items) - {key}
    {
      items := items - {key};
    }

    /** `localStorage.clear()`. */
    method Clear()
      modifies this
      ensures items == map[]
    {
      items := map[];
    }
  }

  /** `localStorage.getItem("token")` read for truthiness, as every
      authenticated handler does before its request. */
  method HasToken(storage: LocalStorage) returns (present: bool)
    ensures present == Present(storage.items, TokenKey)
  {
    var token := storage.GetItem(TokenKey);
    present := token.Some? && token.value != Text("");
  }

  /** The session clearing every screen performs on logout and on a 401:
      remove the token, then the user. */
  method ClearSession(storage: LocalStorage)
    modifies storage
    ensures storage.items == WithoutSession(old(storage.items))
  {
    storage.RemoveItem(TokenKey);
    storage.RemoveItem(UserKey);
  }

  /** The storage of a successful sign-in or sign-up. */
  method StoreSession(storage: LocalStorage, user: UserRecord, token: string)
    modifies storage
    ensures storage.items == WithSession(old(storage.items), user, token)
  {
    storage.SetItem(UserKey, UserJson(user));
    storage.SetItem(TokenKey, Text(token));
  }
}
