/**
 The holder's calls on one another when any push may fail, force pushes included: sending may
 resync, resyncing may drop, dropping reports, sends and resyncs in turn. Only who is connected,
 the sizes asked for and the count told are kept here; every push is a coin toss. The calls still
 end, the count told is still right and the size still the latest asked for.
 */
module FallibleHolders {
  import opened Basics
  import opened HolderProtocol

  type Roles = map<ClientId, Option<Role>>

  function WritersIn(clients: Roles): set<ClientId> {
    set c | c in clients && clients[c] == Some(Attach(false))
  }

  /** Each size is asked for by a client connected, or being dropped, each client's once; and the
      PTY has the size asked for last, unless it ever refused one. */
  ghost predicate Listed(clients: Roles, resizes: seq<(ClientId, Size)>, size: Size, refused: bool,
          going: set<ClientId>)
  {
    && (forall i, j :: 0 <= i < j < |resizes| ==> resizes[i].0 != resizes[j].0)
    && (forall i :: 0 <= i < |resizes| ==> resizes[i].0 in clients || resizes[i].0 in going)
    && (resizes != [] && !refused ==> resizes[|resizes| - 1].1 == size)
  }

  /** Nobody joined, and those still here have the roles they had. */
  ghost predicate Fewer(before: Roles, after: Roles) {
    && after.Keys <= before.Keys
    && forall c :: c in after ==> after[c] == before[c]
  }

  lemma {:induction false} FewerIsFewer(before: Roles, after: Roles)
    requires Fewer(before, after)
    ensures |after| <= |before|
  {
    SubsetSize(after.Keys, before.Keys);
  }

  lemma Removed(before: Roles, after: Roles, client: ClientId, resizes: seq<(ClientId, Size)>, size: Size,
          refused: bool, going: set<ClientId>)
    requires after == before - {client} && Listed(before, resizes, size, refused, going)
    ensures after.Keys == before.Keys - {client} && Fewer(before, after) && |after| == |before.Keys - {client}|
    ensures Listed(after, resizes, size, refused, going + {client})
  {
  }

  lemma WritersAre(clients: Roles)
    ensures WritersIn(clients) == set c | c in clients && clients[c] == Some(Attach(false))
  {
  }

  class FallibleHolder {
    var clients: Roles
    var resizes: seq<(ClientId, Size)>
    var size: Size
    var reportedAttached: nat
    ghost var refused: bool

    ghost predicate Counted()
      reads this
    {
      reportedAttached == |set c | c in clients && clients[c] == Some(Attach(false))|
    }

    ghost predicate Sized(going: set<ClientId>)
      reads this
    {
      Listed(clients, resizes, size, refused, going)
    }

    method Resync(client: ClientId, ghost going: set<ClientId>)
      requires Sized(going) && Counted()
      modifies this
      ensures Sized(going) && Counted() && Fewer(old(clients), clients)
      decreases |clients|, 0
    {
      if client !in clients {
        return;
      }
      var delivered: bool := *;
      if !delivered {
        assert |clients.Keys - {client}| < |clients.Keys|;
        DropClient(client, going);
      }
    }

    method OnStalled(client: ClientId, ghost going: set<ClientId>)
      requires client in clients && Sized(going) && Counted()
      modifies this
      ensures Sized(going) && Counted() && Fewer(old(clients), clients)
      decreases |clients|, 1
    {
      if clients[client].Some? {
        Resync(client, going);
      } else {
        assert |clients.Keys - {client}| < |clients.Keys|;
        DropClient(client, going);
      }
    }

    method Send(client: ClientId, ghost going: set<ClientId>)
      requires Sized(going) && Counted()
      modifies this
      ensures Sized(going) && Counted() && Fewer(old(clients), clients)
      decreases |clients|, 2
    {
      var pushed: bool := *;
      if client in clients && !pushed {
        OnStalled(client, going);
      }
    }

    method ReportAttached(ghost going: set<ClientId>)
      requires Sized(going)
      modifies this
      ensures Sized(going) && Counted() && Fewer(old(clients), clients)
      decreases |clients|, 3
    {
      hide WritersIn;
      WritersAre(clients);
      var attached := |WritersIn(clients)|;
      if attached == reportedAttached {
        return;
      }
      reportedAttached := attached;
      var todo: set<ClientId> := set c | c in clients && clients[c] == Some(Supervisor);
      ghost var was := clients;
      while todo != {}
        invariant Sized(going) && Counted() && Fewer(was, clients)
        decreases |todo|
      {
        var client :| client in todo;
        FewerIsFewer(was, clients);
        Send(client, going);
        todo := todo - {client};
      }
    }

    method ApplySize(newSize: Size) returns (changed: bool)
      modifies `size, `refused
      ensures old(refused) ==> refused
      ensures !refused ==> size == newSize
      ensures !changed ==> size == old(size)
    {
      if newSize == size {
        return false;
      }
      changed := *;
      if changed {
        size := newSize;
      } else {
        refused := true;
      }
    }

    method ResyncAttached(ghost going: set<ClientId>)
      requires Sized(going) && Counted()
      modifies this
      ensures Sized(going) && Counted() && Fewer(old(clients), clients)
      decreases |clients|, 1
    {
      var todo: set<ClientId> := set c | c in clients && clients[c].Some? && clients[c].value.Attach?;
      ghost var was := clients;
      while todo != {}
        invariant Sized(going) && Counted() && Fewer(was, clients)
        decreases |todo|
      {
        var client :| client in todo;
        FewerIsFewer(was, clients);
        Resync(client, going);
        todo := todo - {client};
      }
    }

    /** However its pushes fare, dropping a client ends with it gone, the count told right and the
        size the latest asked for by those who are left. */
    method DropClient(client: ClientId, ghost going: set<ClientId>)
      requires Sized(going)
      modifies this
      ensures Sized(going - {client}) && Counted() && Fewer(old(clients), clients) && client !in clients
      decreases |clients.Keys - {client}|, 4
    {
      hide Listed, WritersIn;
      ghost var was := clients;
      clients := clients - {client};
      Removed(was, clients, client, resizes, size, refused, going);
      ghost var left := clients;
      ReportAttached(going + {client});
      FewerIsFewer(left, clients);
      FallBack(client, going);
    }

    /** Forgets what a client gone asked for, taking the size asked for before it. */
    method FallBack(client: ClientId, ghost going: set<ClientId>)
      requires Sized(going + {client}) && Counted() && client !in clients
      modifies this
      ensures Sized(going - {client}) && Counted() && Fewer(old(clients), clients)
      decreases |clients|, 2
    {
      hide WritersIn;
      var wasLatest := resizes != [] && resizes[|resizes| - 1].0 == client;
      Forget(client, going);
      var changed := false;
      if wasLatest && resizes != [] {
        changed := ApplySize(resizes[|resizes| - 1].1);
      }
      if changed {
        ResyncAttached(going - {client});
      }
    }

    /** Drops what a client asked for from the list. */
    method Forget(client: ClientId, ghost going: set<ClientId>)
      requires Sized(going + {client}) && client !in clients
      modifies `resizes
      ensures Listed(clients, resizes, size,
                     refused || (old(resizes) != [] && old(resizes)[|old(resizes)| - 1].0 == client), going - {client})
    {
      var kept: seq<(ClientId, Size)> := [];
      for i := 0 to |resizes|
        invariant forall k :: 0 <= k < |kept| ==> kept[k] in resizes[..i] && kept[k].0 != client
        invariant forall j, k :: 0 <= j < k < |kept| ==> kept[j].0 != kept[k].0
        invariant i > 0 && resizes[i - 1].0 != client ==> kept != [] && kept[|kept| - 1] == resizes[i - 1]
      {
        if resizes[i].0 != client {
          kept := kept + [resizes[i]];
        }
      }
      resizes := kept;
    }
  }
}
