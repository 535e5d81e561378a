/** The cookie that carries a refresh token: a user id and a secret, joined by a dot. */
module RefreshCookie {
  import opened Wrappers

  /** The Redis key of one refresh token. */
  datatype Key = Key(user: string, secret: string)

  function DotIndex(s: string): (i: nat)
    ensures i <= |s| && (i < |s| ==> s[i] == '.') && '.' !in s[..i]
  {
    if s == [] || s[0] == '.' then 0
    else
      var i := 1 + DotIndex(s[1..]);
      assert s[..i] == [s[0]] + s[1..][..i - 1];
      i
  }

  /** The cookie is split at its dots and must have exactly two parts. */
  function ParseRefreshToken(raw: Option<string>): Option<Key> {
    if raw.None? || raw.value == "" then None
    else
      var i := DotIndex(raw.value);
      if i == |raw.value| || '.' in raw.value[i + 1..] then None
      else Some(Key(raw.value[..i], raw.value[i + 1..]))
  }

  function FormatRefreshToken(key: Key): string { key.user + "." + key.secret }

  lemma {:induction false} DotIndexAfter(prefix: string, rest: string)
    requires '.' !in prefix
    ensures DotIndex(prefix + "." + rest) == |prefix|
  {
    if prefix != "" {
      assert (prefix + "." + rest)[1..] == prefix[1..] + "." + rest;
      DotIndexAfter(prefix[1..], rest);
    }
  }

  /** The cookie that a session sets reads back as its key exactly when neither part contains a dot. */
  lemma CookieRoundTrip(key: Key)
    ensures ParseRefreshToken(Some(FormatRefreshToken(key))) == Some(key) <==> '.' !in key.user && '.' !in key.secret
  {
    var raw := FormatRefreshToken(key);
    var i, n := DotIndex(raw), |key.user|;
    assert raw[n] == '.' && raw[..n] == key.user && raw[n + 1..] == key.secret;
    if '.' !in key.user {
      DotIndexAfter(key.user, key.secret);
    }
  }

  /** Only the formats of keys are accepted. */
  lemma ParsedCookieFormatsBack(raw: string)
    requires ParseRefreshToken(Some(raw)).Some?
    ensures FormatRefreshToken(ParseRefreshToken(Some(raw)).value) == raw
  {
    var i := DotIndex(raw);
    assert raw == raw[..i] + [raw[i]] + raw[i + 1..];
  }
}
