/**
 * The server-side auth helpers of `src/lib/auth/server.ts`: the admin check
 * over the `profiles` row and the user id taken from the `authorization`
 * header.
 */
module AuthServer {
  import opened Options
  import opened Strings

  /** The outcome of `profiles.select('is_admin').eq('id', userId).single()`. */
  datatype ProfileQuery =
    | Threw
    | QueryError
    | NoRow
    | Row(isAdmin: Option<bool>)   // the column is nullable

  /** `isAdmin`: only a returned row whose flag is exactly `true` grants admin. */
  function IsAdmin(q: ProfileQuery): (b: bool)
    ensures b <==> q == Row(Some(true))
  {
    match q
    case Row(flag) => flag == Some(true)
    case _ => false
  }

  const BearerPrefix := "Bearer "

  /**
   * `getUserIdFromHeaders`: no header, or an empty one, gives null; else the
   * header with its first `Bearer ` removed, wherever it stands.
   */
  function GetUserIdFromHeaders(authorization: Option<string>): (r: Option<string>)
    ensures r.None? <==> authorization.None? || authorization.value == ""
    ensures r.Some? && !Contains(authorization.value, BearerPrefix) ==> r.value == authorization.value
    ensures r.Some? && Contains(authorization.value, BearerPrefix) ==> |r.value| + 7 == |authorization.value|
    ensures r.Some? && Contains(authorization.value, BearerPrefix) ==>
      exists i :: OccursAt(authorization.value, BearerPrefix, i)
        && (forall j :: 0 <= j < i ==> !OccursAt(authorization.value, BearerPrefix, j))
        && r.value == authorization.value[..i] + authorization.value[i + 7..]
  {
    if authorization.None? || authorization.value == "" then None
    else Some(ReplaceFirst(authorization.value, BearerPrefix, ""))
  }

  /** A well-formed header gives back exactly the token after `Bearer `. */
  lemma {:induction false} BearerRoundTrip(token: string)
    ensures GetUserIdFromHeaders(Some(BearerPrefix + token)) == Some(token)
  {
    var h := BearerPrefix + token;
    assert h[..7] == BearerPrefix;
    assert OccursAt(h, BearerPrefix, 0);
    assert IndexOf(h, BearerPrefix) == Some(0);
    assert h[..0] + "" + h[7..] == token;
  }

  /**
   * The prefix is removed from the middle of a header too: `x` + `Bearer ` +
   * `y` gives `x + y` when `x` cannot start an earlier occurrence.
   */
  lemma {:induction false} InnerBearerRemoved(x: string, y: string)
    requires forall i :: 0 <= i < |x| ==> x[i] != 'B'
    ensures GetUserIdFromHeaders(Some(x + BearerPrefix + y)) == Some(x + y)
  {
    var h := x + BearerPrefix + y;
    var i := |x|;
    assert h[i..i + 7] == BearerPrefix;
    assert OccursAt(h, BearerPrefix, i);
    forall j | 0 <= j < i
      ensures !OccursAt(h, BearerPrefix, j)
    {
      assert h[j] == x[j];
    }
    assert IndexOf(h, BearerPrefix) == Some(i);
    assert h[..i] + "" + h[i + 7..] == x + y;
  }
}
