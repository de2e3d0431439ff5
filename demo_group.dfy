/**
 * `demo_group`: the authorisation check run before any function protected
 * by the group `"demo_group"`. The caller's user name is allowed exactly
 * when it is on a fixed list. The log line it writes is not modelled.
 */
module DemoGroup {

  /** The allowed user names, in the order they are listed. */
  const AllowedUsers: seq<string> := ["user123", "user456", "alice", "bob", "admin"]

  /** Whether `user` may call the protected functions. */
  function IsAllowed(user: string): (allowed: bool)
    ensures allowed <==> user == "user123" || user == "user456" || user == "alice" || user == "bob" || user == "admin"
  {
    user in AllowedUsers
  }

  /** Names are compared exactly: no case folding, no trimming, and the
      empty name is refused. */
  lemma {:induction false} ExactComparison()
    ensures !IsAllowed("Alice") && !IsAllowed("ADMIN") && !IsAllowed(" bob") && !IsAllowed("")
    ensures IsAllowed("alice") && IsAllowed("admin")
  {
    assert "Alice"[0] != "alice"[0];
    assert "ADMIN"[0] != "admin"[0];
    assert " bob"[0] != "bob"[0];
  }

  /** Every allowed name is a plain non-empty word of lower-case letters and
      digits, so no name with a capital letter or a space gets in. */
  lemma AllowedAreLowerWords(user: string)
    requires IsAllowed(user)
    ensures |user| >= 3
    ensures forall i :: 0 <= i < |user| ==> 'a' <= user[i] <= 'z' || '0' <= user[i] <= '9'
  {
  }
}
