/**
  The fleet of src/ApiClient/AccountManager.ts: the accounts in
  configuration order, a selector that picks the first one below its
  ceiling, and lifecycle fan-out to every account.
 */
module ApiAccountManager {
  import opened Wrappers
  import opened Types
  import opened ApiAccount

  /** The selection test: fewer requests in flight than the account's ceiling. */
  predicate Available(a: Account)
    reads a
  {
    a.GetServerQueueSize() < a.GetMaxProcessingCount()
  }

  class AccountManager {
    var accounts: seq<Account>

    ghost predicate Valid()
      reads this, accounts
    {
      && (forall i, j :: 0 <= i < j < |accounts| ==> accounts[i] != accounts[j])
      && (forall i :: 0 <= i < |accounts| ==> accounts[i].Valid())
    }

    /** One new account per settings entry, in the given order. */
    constructor (settingsList: seq<AccountSettings>)
      ensures Valid()
      ensures |accounts| == |settingsList|
      ensures forall i :: 0 <= i < |accounts| ==> fresh(accounts[i])
      ensures forall i :: 0 <= i < |accounts| ==>
        && accounts[i].settings == settingsList[i]
        && !accounts[i].hasSocket && !accounts[i].isConnected
        && accounts[i].localQueue == [] && accounts[i].serverQueue == [] && accounts[i].events == []
    {
      var created: seq<Account> := [];
      for k := 0 to |settingsList|
        invariant |created| == k
        invariant forall i, j :: 0 <= i < j < k ==> created[i] != created[j]
        invariant forall i :: 0 <= i < k ==> fresh(created[i])
        invariant forall i :: 0 <= i < k ==>
          && created[i].Valid()
          && created[i].settings == settingsList[i]
          && !created[i].hasSocket && !created[i].isConnected
          && created[i].localQueue == [] && created[i].serverQueue == [] && created[i].events == []
      {
        var account := new Account(settingsList[k]);
        created := created + [account];
      }
      accounts := created;
    }

    /** The indices, from `from` on, of the accounts that pass the selection test; the first is the lowest. */
    function AvailableFrom(from: nat): (r: seq<nat>)
      reads this, accounts
      requires from <= |accounts|
      ensures |r| > 0 ==> from <= r[0] < |accounts| && Available(accounts[r[0]])
      ensures |r| > 0 ==> forall i :: from <= i < r[0] ==> !Available(accounts[i])
      ensures |r| == 0 ==> forall i :: from <= i < |accounts| ==> !Available(accounts[i])
      decreases |accounts| - from
    {
      if from == |accounts| then []
      else if Available(accounts[from]) then [from] + AvailableFrom(from + 1)
      else AvailableFrom(from + 1)
    }

    /**
      `getNextAvailableAccount()`: filter the accounts by the selection test
      and take the first, here as its index; None (the source's null) when
      none passes.
     */
    function GetNextAvailableAccount(): (r: Option<nat>)
      reads this, accounts
      ensures r.Some? ==> r.value < |accounts| && Available(accounts[r.value])
      ensures r.Some? ==> forall j :: 0 <= j < r.value ==> !Available(accounts[j])
      ensures r.None? <==> forall j :: 0 <= j < |accounts| ==> !Available(accounts[j])
    {
      var available := AvailableFrom(0);
      if |available| > 0 then Some(available[0]) else None
    }

    /**
      `addToQueue`: hand the request to the selected account, or drop it
      when every account is at its ceiling. Exactly one account, or none,
      changes.
     */
    method AddToQueue(request: GenRequest, localId: LocalId) returns (chosen: Option<nat>)
      requires Valid()
      modifies accounts
      ensures Valid()
      ensures chosen == old(GetNextAvailableAccount())
      ensures forall j :: 0 <= j < |accounts| && chosen != Some(j) ==>
        && accounts[j].localQueue == old(accounts[j].localQueue)
        && accounts[j].serverQueue == old(accounts[j].serverQueue)
        && accounts[j].events == old(accounts[j].events)
        && accounts[j].isConnected == old(accounts[j].isConnected)
        && accounts[j].hasSocket == old(accounts[j].hasSocket)
      ensures chosen.Some? ==>
        var a := accounts[chosen.value];
        var queued := OrderedMap.Set(old(a.localQueue), localId, request);
        && a.serverQueue == old(a.serverQueue) && a.events == old(a.events)
        && a.isConnected == old(a.isConnected) && a.hasSocket == old(a.hasSocket)
        && (a.isConnected ==> a.localQueue == queued[1..])
        && (!a.isConnected ==> a.localQueue == queued)
    {
      chosen := GetNextAvailableAccount();
      if chosen.Some? {
        var a := accounts[chosen.value];
        OrderedMap.SizeIsKeyCount(a.serverQueue);
        assert |a.serverQueue| < a.settings.maxProcessingCount;
        var _ := a.AddToQueue(request, localId);
        assert forall j :: 0 <= j < |accounts| && j != chosen.value ==> accounts[j] != a;
      }
    }

    /** `connectAllAccounts()`: `connect()` on every account once, each with its own lookup result. */
    method ConnectAllAccounts(lookups: seq<Option<string>>)
      requires Valid()
      requires |lookups| == |accounts|
      modifies accounts
      ensures Valid()
      ensures forall j :: 0 <= j < |accounts| ==>
        && !accounts[j].isConnected
        && accounts[j].hasSocket == (old(accounts[j].hasSocket) || (lookups[j].Some? && lookups[j].value != ""))
        && accounts[j].localQueue == old(accounts[j].localQueue)
        && accounts[j].serverQueue == old(accounts[j].serverQueue)
        && accounts[j].events == old(accounts[j].events)
    {
      for k := 0 to |accounts|
        invariant Valid()
        invariant forall j :: 0 <= j < k ==>
          && !accounts[j].isConnected
          && accounts[j].hasSocket == (old(accounts[j].hasSocket) || (lookups[j].Some? && lookups[j].value != ""))
          && accounts[j].localQueue == old(accounts[j].localQueue)
          && accounts[j].serverQueue == old(accounts[j].serverQueue)
          && accounts[j].events == old(accounts[j].events)
        invariant forall j :: k <= j < |accounts| ==> unchanged(accounts[j])
      {
        accounts[k].Connect(lookups[k]);
      }
    }

    /** `disconnectAllAccounts()`: `disconnect()` on every account once. */
    method DisconnectAllAccounts()
      requires Valid()
      modifies accounts
      ensures Valid()
      ensures forall j :: 0 <= j < |accounts| ==>
        && !accounts[j].isConnected
        && accounts[j].hasSocket == old(accounts[j].hasSocket)
        && accounts[j].localQueue == old(accounts[j].localQueue)
        && accounts[j].serverQueue == old(accounts[j].serverQueue)
        && accounts[j].events == old(accounts[j].events)
    {
      for k := 0 to |accounts|
        invariant Valid()
        invariant forall j :: 0 <= j < k ==>
          && !accounts[j].isConnected
          && accounts[j].hasSocket == old(accounts[j].hasSocket)
          && accounts[j].localQueue == old(accounts[j].localQueue)
          && accounts[j].serverQueue == old(accounts[j].serverQueue)
          && accounts[j].events == old(accounts[j].events)
        invariant forall j :: k <= j < |accounts| ==> unchanged(accounts[j])
      {
        accounts[k].Disconnect();
      }
    }
  }
}
