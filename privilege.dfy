/**
  The admin check: the first participant of the group roster whose id is the sender,
  and whether that entry's `admin` role is `admin` or `superadmin`. The roster is the
  participant list of the group metadata fetched for the call.
*/
module Privilege {
  import opened Wrappers

  /** One roster entry; `admin` is `None` for an ordinary member. */
  datatype Participant = Participant(id: string, admin: Option<string>)

  predicate IsElevatedRole(role: Option<string>) {
    role == Some("admin") || role == Some("superadmin")
  }

  /** Entry `k` is the first whose id is `id`. */
  ghost predicate IsFirstWithId(roster: seq<Participant>, id: string, k: int) {
    && 0 <= k < |roster|
    && roster[k].id == id
    && forall j | 0 <= j < k :: roster[j].id != id
  }

  /** `participants.find(p => p.id === sender)`. */
  function Find(roster: seq<Participant>, id: string): (r: Option<Participant>)
    ensures r.None? <==> forall k | 0 <= k < |roster| :: roster[k].id != id
    ensures r.Some? ==> exists k :: IsFirstWithId(roster, id, k) && roster[k] == r.value
  {
    if roster == [] then None
    else if roster[0].id == id then
      assert IsFirstWithId(roster, id, 0);
      Some(roster[0])
    else
      var r := Find(roster[1..], id);
      assert r.Some? ==> exists k :: IsFirstWithId(roster, id, k) && roster[k] == r.value by {
        if r.Some? {
          var k :| IsFirstWithId(roster[1..], id, k) && roster[1..][k] == r.value;
          assert IsFirstWithId(roster, id, k + 1);
        }
      }
      r
  }

  /** `checkIfAdmin`: a found participant whose role is elevated. */
  function IsAdmin(roster: seq<Participant>, sender: string): (r: bool)
    ensures r <==> exists k :: IsFirstWithId(roster, sender, k) && IsElevatedRole(roster[k].admin)
  {
    var p := Find(roster, sender);
    FirstIsUnique(roster, sender);
    p.Some? && IsElevatedRole(p.value.admin)
  }

  lemma FirstIsUnique(roster: seq<Participant>, id: string)
    ensures forall k, k' :: IsFirstWithId(roster, id, k) && IsFirstWithId(roster, id, k') ==> k == k'
  {
  }

  /** A sender missing from the roster is never an admin. */
  lemma AbsentIsNotAdmin(roster: seq<Participant>, sender: string)
    requires forall k | 0 <= k < |roster| :: roster[k].id != sender
    ensures !IsAdmin(roster, sender)
  {
  }

  /** Only the first entry for a sender decides: a later elevated duplicate does not help. */
  lemma FirstEntryDecides(p: Participant, rest: seq<Participant>)
    ensures IsAdmin([p] + rest, p.id) <==> IsElevatedRole(p.admin)
  {
    assert IsFirstWithId([p] + rest, p.id, 0);
  }
}
