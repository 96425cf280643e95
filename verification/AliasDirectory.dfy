/**
 Apple's Hide My Email directory: what one listing says, when it is accepted,
 and the address-keyed copy that a deletion run works from.
 */
module AliasDirectory {
  import opened Wrappers
  import opened Text
  import opened AppleErrors

  /** `parses` says that net/mail reads the normalized address back unchanged. */
  datatype RemoteAlias = RemoteAlias(
    hme: string, anonymousId: string, forwardTo: string, isActive: bool, parses: bool)

  datatype Listing = Listing(aliases: seq<RemoteAlias>, selectedForwardTo: string, forwardToEmails: seq<string>)

  type Directory = map<string, RemoteAlias>

  function Key(a: RemoteAlias): string { NormalizeEmail(a.hme) }

  function RemoteId(a: RemoteAlias): string { Trim(a.anonymousId) }

  predicate ValidAddress(a: RemoteAlias) {
    Key(a) != "" && a.parses
  }

  ghost predicate Distinct(aliases: seq<RemoteAlias>) {
    forall i, j :: 0 <= i < j < |aliases| ==>
      && Key(aliases[i]) != Key(aliases[j])
      && (RemoteId(aliases[i]) != "" ==> RemoteId(aliases[i]) != RemoteId(aliases[j]))
  }

  /** The listing names every alias once, by a usable address and by at most one remote ID. */
  ghost predicate WellFormed(aliases: seq<RemoteAlias>) {
    (forall a :: a in aliases ==> ValidAddress(a)) && Distinct(aliases)
  }

  ghost predicate Belongs(listing: Listing, email: string) {
    || SameEmail(listing.selectedForwardTo, email)
    || (exists e :: e in listing.forwardToEmails && SameEmail(e, email))
    || AnyOwned(listing.aliases, email)
  }

  function Owned(aliases: seq<RemoteAlias>, email: string): seq<RemoteAlias> {
    if aliases == [] then []
    else
      var n := |aliases| - 1;
      Owned(aliases[..n], email) +
      if SameEmail(aliases[n].forwardTo, email) then [aliases[n].(hme := Key(aliases[n]))] else []
  }

  function CountInactive(aliases: seq<RemoteAlias>): nat {
    if aliases == [] then 0
    else CountInactive(aliases[..|aliases| - 1]) + if aliases[|aliases| - 1].isActive then 0 else 1
  }

  ghost function Addresses(aliases: seq<RemoteAlias>): set<string> {
    set i | 0 <= i < |aliases| :: Key(aliases[i])
  }

  ghost function RemoteIds(aliases: seq<RemoteAlias>): set<string> {
    set i | 0 <= i < |aliases| && RemoteId(aliases[i]) != "" :: RemoteId(aliases[i])
  }

  ghost predicate AnyOwned(aliases: seq<RemoteAlias>, email: string) {
    exists a :: a in aliases && SameEmail(a.forwardTo, email)
  }

  /** One more alias keeps a prefix well formed exactly when it passes the three checks. */
  lemma WellFormedOneMore(aliases: seq<RemoteAlias>, next: RemoteAlias)
    requires WellFormed(aliases)
    ensures WellFormed(aliases + [next]) <==>
              && ValidAddress(next)
              && Key(next) !in Addresses(aliases)
              && (RemoteId(next) == "" || RemoteId(next) !in RemoteIds(aliases))
  {
    var longer := aliases + [next];
    assert longer[|aliases|] == next;
    if WellFormed(longer) {
      assert next in longer;
      forall j | 0 <= j < |aliases|
        ensures Key(aliases[j]) != Key(next)
        ensures RemoteId(aliases[j]) != "" ==> RemoteId(aliases[j]) != RemoteId(next)
      {
        assert longer[j] == aliases[j];
      }
    } else if ValidAddress(next) {
      var i, j :| 0 <= i < j < |longer| &&
                  (Key(longer[i]) == Key(longer[j]) ||
                   (RemoteId(longer[i]) != "" && RemoteId(longer[i]) == RemoteId(longer[j])));
      assert j == |aliases|;
    }
  }

  lemma PrefixWellFormed(aliases: seq<RemoteAlias>, i: nat)
    requires i <= |aliases| && WellFormed(aliases)
    ensures WellFormed(aliases[..i])
  {
    forall a | a in aliases[..i]
      ensures ValidAddress(a)
    {
      assert a in aliases;
    }
  }

  /** The account's own aliases, or the reason why the listing cannot be trusted. */
  method FilterAliases(listing: Listing, email: string)
    returns (filtered: seq<RemoteAlias>, inactive: nat, err: Option<Code>)
    ensures err.None? <==> WellFormed(listing.aliases) && Belongs(listing, email)
    ensures err == Some(AccountMismatchCode) <==> WellFormed(listing.aliases) && !Belongs(listing, email)
    ensures err == Some(UpstreamErrorCode) <==> !WellFormed(listing.aliases)
    ensures err.None? ==> filtered == Owned(listing.aliases, email) && inactive == CountInactive(filtered)
  {
    hide NormalizeEmail, SameEmail, WellFormed, Addresses, RemoteIds, AnyOwned;
    var aliases := listing.aliases;
    var belongs := SameEmail(listing.selectedForwardTo, email);
    for i := 0 to |listing.forwardToEmails|
      invariant belongs <==> SameEmail(listing.selectedForwardTo, email)
                             || exists e :: e in listing.forwardToEmails[..i] && SameEmail(e, email)
    {
      belongs := belongs || SameEmail(listing.forwardToEmails[i], email);
    }
    assert listing.forwardToEmails[..|listing.forwardToEmails|] == listing.forwardToEmails;
    ghost var selected := belongs;
    var seenAddresses: set<string>, seenRemoteIDs: set<string> := {}, {};
    filtered, inactive := [], 0;
    NothingSeenYet(aliases[..0], email);
    for i := 0 to |aliases|
      invariant WellFormed(aliases[..i])
      invariant seenAddresses == Addresses(aliases[..i]) && seenRemoteIDs == RemoteIds(aliases[..i])
      invariant belongs <==> selected || AnyOwned(aliases[..i], email)
      invariant filtered == Owned(aliases[..i], email) && inactive == CountInactive(filtered)
    {
      var remote := aliases[i];
      ghost var before, after := aliases[..i], aliases[..i + 1];
      assert after == before + [remote] && after[..i] == before;
      WellFormedOneMore(before, remote);
      if WellFormed(aliases) {
        PrefixWellFormed(aliases, i + 1);
      }
      var address := Key(remote);
      if address == "" || !remote.parses {
        return [], 0, Some(UpstreamErrorCode);
      }
      if address in seenAddresses {
        return [], 0, Some(UpstreamErrorCode);
      }
      seenAddresses := seenAddresses + {address};
      var remoteID := RemoteId(remote);
      if remoteID != "" {
        if remoteID in seenRemoteIDs {
          return [], 0, Some(UpstreamErrorCode);
        }
        seenRemoteIDs := seenRemoteIDs + {remoteID};
      }
      SeenOneMore(before, remote);
      if SameEmail(remote.forwardTo, email) {
        belongs := true;
        var own := remote.(hme := address);
        assert (filtered + [own])[..|filtered|] == filtered;
        filtered := filtered + [own];
        if !remote.isActive {
          inactive := inactive + 1;
        }
      }
      assert Owned(after, email) == filtered;
    }
    assert aliases[..|aliases|] == aliases;
    if !belongs {
      return [], 0, Some(AccountMismatchCode);
    }
    err := None;
  }

  /** The listing is the mailbox's if Apple forwards to it by default, may forward to it, or does so for some alias. */
  lemma BelongsMeans(listing: Listing, email: string)
    ensures Belongs(listing, email) <==>
              exists e :: SameEmail(e, email)
                          && (e == listing.selectedForwardTo || e in listing.forwardToEmails
                              || exists a :: a in listing.aliases && a.forwardTo == e)
  {
    hide SameEmail;
    if a :| a in listing.aliases && SameEmail(a.forwardTo, email) {
      assert SameEmail(a.forwardTo, email);
    }
  }

  /** Every alias of an accepted listing has an address that is more than blanks and reads back as itself. */
  lemma WellFormedMeans(aliases: seq<RemoteAlias>, a: RemoteAlias, left: string, x: string, right: string)
    requires WellFormed(aliases) && a in aliases
    requires a.hme == left + x + right && Blank(left) && Blank(right) && Unpadded(x)
    ensures x != "" && a.parses
  {
    TrimOf(left, x, right);
    assert ValidAddress(a) && |ToLower(Trim(a.hme))| == |Trim(a.hme)|;
    hide Trim, ToLower, Blank, Unpadded;
  }

  lemma {:induction false} OwnedAreCounted(aliases: seq<RemoteAlias>, email: string)
    ensures |Owned(aliases, email)| == |set i | 0 <= i < |aliases| && SameEmail(aliases[i].forwardTo, email)|
  {
    hide NormalizeEmail, SameEmail;
    var all := set i | 0 <= i < |aliases| && SameEmail(aliases[i].forwardTo, email);
    if aliases == [] {
      assert all == {};
    } else {
      var n := |aliases| - 1;
      OwnedAreCounted(aliases[..n], email);
      var earlier := set i | 0 <= i < |aliases[..n]| && SameEmail(aliases[..n][i].forwardTo, email);
      assert all == earlier + (if SameEmail(aliases[n].forwardTo, email) then {n} else {});
    }
  }

  /** The account's own aliases are those that forward to it, in their order and with normalized addresses. */
  lemma {:induction false} OwnedMeans(aliases: seq<RemoteAlias>, email: string) returns (places: seq<nat>)
    ensures |places| == |Owned(aliases, email)|
    ensures |places| == |set i | 0 <= i < |aliases| && SameEmail(aliases[i].forwardTo, email)|
    ensures forall k :: 0 <= k < |places| ==>
              && places[k] < |aliases| && SameEmail(aliases[places[k]].forwardTo, email)
              && Owned(aliases, email)[k] == aliases[places[k]].(hme := NormalizeEmail(aliases[places[k]].hme))
    ensures forall j, k :: 0 <= j < k < |places| ==> places[j] < places[k]
  {
    OwnedAreCounted(aliases, email);
    hide NormalizeEmail, SameEmail;
    if aliases == [] {
      places := [];
    } else {
      var n := |aliases| - 1;
      places := OwnedMeans(aliases[..n], email);
      if SameEmail(aliases[n].forwardTo, email) { places := places + [n]; }
    }
  }

  lemma {:induction false} InactiveAreCounted(aliases: seq<RemoteAlias>)
    ensures CountInactive(aliases) == |set i | 0 <= i < |aliases| && !aliases[i].isActive|
  {
    var all := set i | 0 <= i < |aliases| && !aliases[i].isActive;
    if aliases == [] {
      assert all == {};
    } else {
      var n := |aliases| - 1;
      InactiveAreCounted(aliases[..n]);
      var earlier := set i | 0 <= i < |aliases[..n]| && !aliases[..n][i].isActive;
      assert all == earlier + (if aliases[n].isActive then {} else {n});
    }
  }

  lemma NothingSeenYet(aliases: seq<RemoteAlias>, email: string)
    requires aliases == []
    ensures WellFormed(aliases) && Addresses(aliases) == {} && RemoteIds(aliases) == {} && !AnyOwned(aliases, email)
  {
  }

  lemma SeenOneMore(aliases: seq<RemoteAlias>, next: RemoteAlias)
    ensures Addresses(aliases + [next]) == Addresses(aliases) + {Key(next)}
    ensures RemoteIds(aliases + [next]) ==
            RemoteIds(aliases) + if RemoteId(next) == "" then {} else {RemoteId(next)}
    ensures forall email ::
              AnyOwned(aliases + [next], email) <==> AnyOwned(aliases, email) || SameEmail(next.forwardTo, email)
  {
    hide NormalizeEmail, SameEmail, Trim;
    var longer := aliases + [next];
    forall i | 0 <= i < |longer|
      ensures i < |aliases| ==> longer[i] == aliases[i]
      ensures Key(longer[i]) in Addresses(longer)
      ensures RemoteId(longer[i]) != "" ==> RemoteId(longer[i]) in RemoteIds(longer)
    {
    }
    assert longer[|aliases|] == next;
    forall s | s in Addresses(aliases)
      ensures s in Addresses(longer)
    {
      var i :| 0 <= i < |aliases| && Key(aliases[i]) == s;
      assert Key(longer[i]) == s;
    }
    forall s | s in RemoteIds(aliases)
      ensures s in RemoteIds(longer)
    {
      var i :| 0 <= i < |aliases| && RemoteId(aliases[i]) == s;
      assert RemoteId(longer[i]) == s;
    }
  }

  /** What storing the listing alias by alias under its normalized address gives. */
  function Index(aliases: seq<RemoteAlias>): Directory {
    if aliases == [] then map[]
    else
      var last := aliases[|aliases| - 1];
      Index(aliases[..|aliases| - 1])[Key(last) := last]
  }

  method BuildDirectory(aliases: seq<RemoteAlias>) returns (directory: Directory)
    ensures directory == Index(aliases)
  {
    directory := map[];
    for i := 0 to |aliases|
      invariant directory == Index(aliases[..i])
    {
      assert aliases[..i + 1][..i] == aliases[..i];
      directory := directory[Key(aliases[i]) := aliases[i]];
    }
    assert aliases[..|aliases|] == aliases;
  }

  /** The directory holds exactly the aliases of `actual`, each under its own address. */
  ghost predicate Mirrors(directory: Directory, actual: set<RemoteAlias>) {
    && (forall k :: k in directory ==> directory[k] in actual && Key(directory[k]) == k)
    && (forall a :: a in actual ==> Key(a) in directory && directory[Key(a)] == a)
  }

  ghost predicate DistinctIds(directory: Directory) {
    forall k, l :: k in directory && l in directory && k != l && RemoteId(directory[k]) != "" ==>
      RemoteId(directory[k]) != RemoteId(directory[l])
  }

  ghost function Entries(aliases: seq<RemoteAlias>): set<RemoteAlias> {
    set a | a in aliases
  }

  lemma InsertedKeepsMirror(directory: Directory, actual: set<RemoteAlias>, a: RemoteAlias)
    requires Mirrors(directory, actual) && Key(a) !in directory
    ensures Mirrors(directory[Key(a) := a], actual + {a})
  {
  }

  lemma InsertedKeepsDistinctIds(directory: Directory, a: RemoteAlias)
    requires DistinctIds(directory)
    requires RemoteId(a) != "" ==> forall k :: k in directory ==> RemoteId(directory[k]) != RemoteId(a)
    ensures DistinctIds(directory[Key(a) := a])
  {
  }

  /** Nothing in a well-formed listing is overwritten: the copy keeps every alias. */
  lemma {:induction false} IndexLosesNothing(aliases: seq<RemoteAlias>)
    requires WellFormed(aliases)
    ensures Mirrors(Index(aliases), Entries(aliases))
    ensures DistinctIds(Index(aliases))
    ensures |Index(aliases)| == |aliases|
  {
    hide NormalizeEmail, Trim, WellFormed;
    if aliases != [] {
      var before, last := aliases[..|aliases| - 1], aliases[|aliases| - 1];
      PrefixWellFormed(aliases, |aliases| - 1);
      IndexLosesNothing(before);
      assert aliases == before + [last];
      assert Entries(aliases) == Entries(before) + {last};
      NewEntryIsNew(before, last);
      InsertedKeepsMirror(Index(before), Entries(before), last);
      InsertedKeepsDistinctIds(Index(before), last);
    }
  }

  lemma NewEntryIsNew(aliases: seq<RemoteAlias>, next: RemoteAlias)
    requires WellFormed(aliases) && WellFormed(aliases + [next])
    requires Mirrors(Index(aliases), Entries(aliases))
    ensures Key(next) !in Index(aliases)
    ensures RemoteId(next) != "" ==>
              forall k :: k in Index(aliases) ==> RemoteId(Index(aliases)[k]) != RemoteId(next)
  {
    WellFormedOneMore(aliases, next);
    var d := Index(aliases);
    forall k | k in d
      ensures k != Key(next) && (RemoteId(next) != "" ==> RemoteId(d[k]) != RemoteId(next))
    {
      assert d[k] in aliases;
      var i :| 0 <= i < |aliases| && aliases[i] == d[k];
    }
  }

  /** Without the duplicate check an alias could be lost from the copy. */
  lemma DuplicateAddressWouldLoseAnAlias()
    ensures exists aliases: seq<RemoteAlias> ::
              (forall a :: a in aliases ==> ValidAddress(a)) && |Index(aliases)| < |aliases|
  {
    var a := RemoteAlias("a", "1", "", true, true);
    var b := RemoteAlias("a", "2", "", true, true);
    assert [a, b][..1] == [a] && [a][..0] == [];
    assert Key(b) == "a" by { assert Key(b) == Key(a); }
    assert Index([a, b]) == Index([a])["a" := b] && Index([a]) == map["a" := a];
    assert Index([a, b]) == map["a" := b];
    assert Key(a) == "a" && |Index([a, b])| == 1;
  }

  function Deactivated(directory: Directory, id: string): Directory {
    map k | k in directory :: DeactivatedAlias(directory[k], id)
  }

  function DeactivatedAlias(a: RemoteAlias, id: string): RemoteAlias {
    if RemoteId(a) == id then a.(isActive := false) else a
  }

  function Deleted(directory: Directory, id: string): Directory {
    map k | k in directory && RemoteId(directory[k]) != id :: directory[k]
  }

  lemma DeactivationKeepsMirror(directory: Directory, actual: set<RemoteAlias>, id: string)
    requires Mirrors(directory, actual)
    ensures Mirrors(Deactivated(directory, id), set a | a in actual :: DeactivatedAlias(a, id))
  {
    hide NormalizeEmail, Trim;
    var after := set a | a in actual :: DeactivatedAlias(a, id);
    var d := Deactivated(directory, id);
    forall b | b in after
      ensures Key(b) in d && d[Key(b)] == b
    {
      var a :| a in actual && b == DeactivatedAlias(a, id);
      assert Key(b) == Key(a);
    }
    forall k | k in d
      ensures d[k] in after && Key(d[k]) == k
    {
      assert directory[k] in actual && d[k] == DeactivatedAlias(directory[k], id);
    }
  }

  lemma DeletionKeepsMirror(directory: Directory, actual: set<RemoteAlias>, id: string)
    requires Mirrors(directory, actual)
    ensures Mirrors(Deleted(directory, id), set a | a in actual && RemoteId(a) != id)
  {
  }

  /** One entry carries the ID, so Apple's effect is the change of that entry alone. */
  lemma SingleEntryEffects(directory: Directory, address: string)
    requires DistinctIds(directory) && address in directory && RemoteId(directory[address]) != ""
    ensures Deactivated(directory, RemoteId(directory[address])) ==
            directory[address := directory[address].(isActive := false)]
    ensures Deleted(directory, RemoteId(directory[address])) == directory - {address}
  {
  }
}
