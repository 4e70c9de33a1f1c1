/**
 * Subscription resolution: which configured stream, if any, a call belongs to.
 * The streams are scanned in configuration order and the first match wins.
 */
module Subscriptions {

  import opened Wrappers

  /** The routing part of a configured stream: its talkgroup (0 = any) and system short name ("" = any). */
  datatype Subscription = Subscription(tgid: nat, shortName: string)

  /** The talkgroups a call is matched on: its patched talkgroups, or its own talkgroup when it has none. */
  function Candidates(talkgroup: nat, patched: seq<nat>): (r: seq<nat>)
    ensures r != []
    ensures patched == [] ==> r == [talkgroup]
    ensures patched != [] ==> r == patched
  {
    if |patched| == 0 then patched + [talkgroup] else patched
  }

  predicate NameMatches(sub: Subscription, shortName: string) {
    sub.shortName == shortName || sub.shortName == ""
  }

  predicate TalkgroupMatches(sub: Subscription, candidates: seq<nat>) {
    exists k :: 0 <= k < |candidates| && (candidates[k] == sub.tgid || sub.tgid == 0)
  }

  /** The declarative meaning of "this stream wants this call". */
  predicate Matches(sub: Subscription, shortName: string, candidates: seq<nat>) {
    NameMatches(sub, shortName) && TalkgroupMatches(sub, candidates)
  }

  /** The inner scan over the candidate talkgroups of one stream. */
  function AnyCandidate(tgid: nat, candidates: seq<nat>): (r: bool)
    ensures r <==> TalkgroupMatches(Subscription(tgid, ""), candidates)
  {
    if candidates == [] then false
    else if candidates[0] == tgid || tgid == 0 then true
    else
      var rest := AnyCandidate(tgid, candidates[1..]);
      assert forall k :: 1 <= k < |candidates| ==> candidates[k] == candidates[1..][k - 1];
      assert TalkgroupMatches(Subscription(tgid, ""), candidates[1..]) ==>
        TalkgroupMatches(Subscription(tgid, ""), candidates);
      rest
  }

  /**
   * The outer scan, from position `from` on: the index of the first stream
   * that matches, or None when none of them does.
   */
  function FindFrom(subs: seq<Subscription>, from: nat, shortName: string, candidates: seq<nat>): (r: Option<nat>)
    requires from <= |subs|
    ensures r.Some? ==> from <= r.value < |subs| && Matches(subs[r.value], shortName, candidates)
    ensures r.Some? ==> forall j :: from <= j < r.value ==> !Matches(subs[j], shortName, candidates)
    ensures r.None? ==> forall j :: from <= j < |subs| ==> !Matches(subs[j], shortName, candidates)
    decreases |subs| - from
  {
    if from == |subs| then None
    else
      var sub := subs[from];
      if (sub.shortName == shortName || sub.shortName == "") && AnyCandidate(sub.tgid, candidates) then
        Some(from)
      else
        FindFrom(subs, from + 1, shortName, candidates)
  }

  /** `find_callstream_internal`: the first configured stream matching a name and a talkgroup list. */
  function FindStreamInternal(subs: seq<Subscription>, shortName: string, candidates: seq<nat>): (r: Option<nat>)
    ensures r.Some? ==> r.value < |subs| && Matches(subs[r.value], shortName, candidates)
    ensures r.Some? ==> forall j :: 0 <= j < r.value ==> !Matches(subs[j], shortName, candidates)
    ensures r.None? <==> forall j :: 0 <= j < |subs| ==> !Matches(subs[j], shortName, candidates)
  {
    FindFrom(subs, 0, shortName, candidates)
  }

  /** `find_callstream`: resolution of a call by its system short name, talkgroup and patches. */
  function FindStream(subs: seq<Subscription>, shortName: string, talkgroup: nat, patched: seq<nat>): (r: Option<nat>)
    ensures r.Some? ==> r.value < |subs| && Matches(subs[r.value], shortName, Candidates(talkgroup, patched))
    ensures r.Some? ==> forall j :: 0 <= j < r.value ==> !Matches(subs[j], shortName, Candidates(talkgroup, patched))
    ensures r.None? <==> forall j :: 0 <= j < |subs| ==> !Matches(subs[j], shortName, Candidates(talkgroup, patched))
  {
    FindStreamInternal(subs, shortName, Candidates(talkgroup, patched))
  }

  /** Any stream that matches and has no matching stream before it is the one resolution returns. */
  lemma FindStreamIsFirstMatch(subs: seq<Subscription>, shortName: string, talkgroup: nat, patched: seq<nat>, i: nat)
    requires i < |subs| && Matches(subs[i], shortName, Candidates(talkgroup, patched))
    requires forall j :: 0 <= j < i ==> !Matches(subs[j], shortName, Candidates(talkgroup, patched))
    ensures FindStream(subs, shortName, talkgroup, patched) == Some(i)
  {
  }

  /** A stream with TGID 0 takes every talkgroup of its system, patched or not. */
  lemma TalkgroupWildcard(sub: Subscription, shortName: string, talkgroup: nat, patched: seq<nat>)
    requires sub.tgid == 0
    ensures Matches(sub, shortName, Candidates(talkgroup, patched)) <==> NameMatches(sub, shortName)
  {
    var c := Candidates(talkgroup, patched);
    assert 0 < |c| && (c[0] == sub.tgid || sub.tgid == 0);
  }

  /** A stream with an empty short name takes its talkgroups on every system. */
  lemma SystemWildcard(sub: Subscription, shortName: string, candidates: seq<nat>)
    requires sub.shortName == ""
    ensures Matches(sub, shortName, candidates) <==> TalkgroupMatches(sub, candidates)
  {
  }

  /** A talkgroup-specific stream matches an unpatched call exactly when the call's talkgroup is its TGID. */
  lemma UnpatchedCallMatchesOwnTalkgroup(sub: Subscription, shortName: string, talkgroup: nat)
    requires sub.tgid != 0
    ensures Matches(sub, shortName, Candidates(talkgroup, [])) <==>
      NameMatches(sub, shortName) && talkgroup == sub.tgid
  {
    assert Candidates(talkgroup, [])[0] == talkgroup;
  }
}
