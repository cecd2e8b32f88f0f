/** The repository's shared types (RepoUtils.swift): the untyped value maps
    as a closed tagged variant, the errors a request can fail with, and the
    `SyncResult` summary with its fluent `Builder`. */
module RepoUtils {
  import opened Strings

  /** The values that travel in the `[String : Any]` dictionaries. */
  datatype Value = Bool(b: bool) | Int(i: int) | Text(s: string)

  type Values = map<string, Value>
  type SelectionArgs = map<string, Value>
  type ResourceIdentifier = int

  /** `ResultSet`, the only `Results` the repository produces; it carries no rows. */
  datatype Results = ResultSet

  /** `RepoError.repoNotStarted`, `RoutingError.noRouteFound`,
      `RoutingError.noHandlerFound`, and anything a handler throws. */
  datatype Error =
    | RepoNotStarted(message: string)
    | NoRouteFound(message: string)
    | NoHandlerFound(message: string)
    | Thrown(description: string)

  /** Swift's `Int` is 64 bits wide and traps on overflow. */
  predicate InInt(n: int) {
    MinInt64 <= n <= MaxInt64
  }

  datatype SyncResult = SyncResult(
    inserts: int,
    updates: int,
    deletes: int,
    authenticationErrors: int,
    networkErrors: int,
    otherErrors: int)

  /** `SyncResult()`: every field defaults to zero. */
  function DefaultSyncResult(): (r: SyncResult)
    ensures r.inserts == r.updates == r.deletes == 0
    ensures r.authenticationErrors == r.networkErrors == r.otherErrors == 0
  {
    SyncResult(0, 0, 0, 0, 0, 0)
  }

  /** The six counters of a `SyncResult.Builder`. */
  datatype Counter = Inserts | Updates | Deletes | AuthenticationErrors | NetworkErrors | OtherErrors

  /** The sum of the arguments passed for counter `c` in a log of builder calls. */
  function Total(log: seq<(Counter, int)>, c: Counter): int
    decreases |log|
  {
    if |log| == 0 then 0
    else Total(log[..|log| - 1], c) + (if log[|log| - 1].0 == c then log[|log| - 1].1 else 0)
  }

  predicate NonNegativeArguments(log: seq<(Counter, int)>) {
    forall i :: 0 <= i < |log| ==> log[i].1 >= 0
  }

  /** With non-negative arguments, later calls never make a counter smaller. */
  lemma {:induction false} TotalGrows(log: seq<(Counter, int)>, more: seq<(Counter, int)>, c: Counter)
    requires NonNegativeArguments(more)
    ensures Total(log + more, c) >= Total(log, c)
    decreases |more|
  {
    if |more| > 0 {
      var shorter := more[..|more| - 1];
      assert (log + more)[..|log + more| - 1] == log + shorter;
      assert (log + more)[|log + more| - 1] == more[|more| - 1];
      assert more[|more| - 1].1 >= 0;
      assert NonNegativeArguments(shorter);
      TotalGrows(log, shorter, c);
      assert Total(log + more, c) >= Total(log + shorter, c);
    } else {
      assert log + more == log;
    }
  }

  /** A builder fed only non-negative arguments holds no negative counter. */
  lemma {:induction false} TotalNonNegative(log: seq<(Counter, int)>, c: Counter)
    requires NonNegativeArguments(log)
    ensures Total(log, c) >= 0
  {
    TotalGrows([], log, c);
    assert [] + log == log;
  }

  class Builder {
    var inserts: int
    var updates: int
    var deletes: int
    var authenticationErrors: int
    var networkErrors: int
    var otherErrors: int

    /** Every counter call made on this builder, in order. */
    ghost var log: seq<(Counter, int)>

    /** Each counter is the sum of the arguments passed to its method. */
    ghost predicate Valid()
      reads this
    {
      && inserts == Total(log, Counter.Inserts)
      && updates == Total(log, Counter.Updates)
      && deletes == Total(log, Counter.Deletes)
      && authenticationErrors == Total(log, Counter.AuthenticationErrors)
      && networkErrors == Total(log, Counter.NetworkErrors)
      && otherErrors == Total(log, Counter.OtherErrors)
    }

    constructor()
      ensures Valid() && log == []
      ensures inserts == updates == deletes == 0
      ensures authenticationErrors == networkErrors == otherErrors == 0
    {
      inserts, updates, deletes := 0, 0, 0;
      authenticationErrors, networkErrors, otherErrors := 0, 0, 0;
      log := [];
    }

    method Inserts(value: int) returns (b: Builder)
      requires Valid() && InInt(inserts + value)
      modifies this
      ensures b == this && Valid() && log == old(log) + [(Counter.Inserts, value)]
      ensures inserts == old(inserts) + value
      ensures updates == old(updates) && deletes == old(deletes)
      ensures authenticationErrors == old(authenticationErrors) && networkErrors == old(networkErrors)
      ensures otherErrors == old(otherErrors)
    {
      inserts := inserts + value;
      log := log + [(Counter.Inserts, value)];
      b := this;
    }

    method Updates(value: int) returns (b: Builder)
      requires Valid() && InInt(updates + value)
      modifies this
      ensures b == this && Valid() && log == old(log) + [(Counter.Updates, value)]
      ensures updates == old(updates) + value
      ensures inserts == old(inserts) && deletes == old(deletes)
      ensures authenticationErrors == old(authenticationErrors) && networkErrors == old(networkErrors)
      ensures otherErrors == old(otherErrors)
    {
      updates := updates + value;
      log := log + [(Counter.Updates, value)];
      b := this;
    }

    method Deletes(value: int) returns (b: Builder)
      requires Valid() && InInt(deletes + value)
      modifies this
      ensures b == this && Valid() && log == old(log) + [(Counter.Deletes, value)]
      ensures deletes == old(deletes) + value
      ensures inserts == old(inserts) && updates == old(updates)
      ensures authenticationErrors == old(authenticationErrors) && networkErrors == old(networkErrors)
      ensures otherErrors == old(otherErrors)
    {
      deletes := deletes + value;
      log := log + [(Counter.Deletes, value)];
      b := this;
    }

    method AuthenticationErrors(value: int) returns (b: Builder)
      requires Valid() && InInt(authenticationErrors + value)
      modifies this
      ensures b == this && Valid() && log == old(log) + [(Counter.AuthenticationErrors, value)]
      ensures authenticationErrors == old(authenticationErrors) + value
      ensures inserts == old(inserts) && updates == old(updates) && deletes == old(deletes)
      ensures networkErrors == old(networkErrors) && otherErrors == old(otherErrors)
    {
      authenticationErrors := authenticationErrors + value;
      log := log + [(Counter.AuthenticationErrors, value)];
      b := this;
    }

    method NetworkErrors(value: int) returns (b: Builder)
      requires Valid() && InInt(networkErrors + value)
      modifies this
      ensures b == this && Valid() && log == old(log) + [(Counter.NetworkErrors, value)]
      ensures networkErrors == old(networkErrors) + value
      ensures inserts == old(inserts) && updates == old(updates) && deletes == old(deletes)
      ensures authenticationErrors == old(authenticationErrors) && otherErrors == old(otherErrors)
    {
      networkErrors := networkErrors + value;
      log := log + [(Counter.NetworkErrors, value)];
      b := this;
    }

    method OtherErrors(value: int) returns (b: Builder)
      requires Valid() && InInt(otherErrors + value)
      modifies this
      ensures b == this && Valid() && log == old(log) + [(Counter.OtherErrors, value)]
      ensures otherErrors == old(otherErrors) + value
      ensures inserts == old(inserts) && updates == old(updates) && deletes == old(deletes)
      ensures authenticationErrors == old(authenticationErrors) && networkErrors == old(networkErrors)
    {
      otherErrors := otherErrors + value;
      log := log + [(Counter.OtherErrors, value)];
      b := this;
    }

    /** A snapshot of the counters; the builder is left as it is. Each field
        of the result is the sum of the arguments given to its counter. */
    method Build() returns (r: SyncResult)
      requires Valid()
      ensures r.inserts == Total(log, Counter.Inserts) && r.updates == Total(log, Counter.Updates)
      ensures r.deletes == Total(log, Counter.Deletes)
      ensures r.authenticationErrors == Total(log, Counter.AuthenticationErrors)
      ensures r.networkErrors == Total(log, Counter.NetworkErrors)
      ensures r.otherErrors == Total(log, Counter.OtherErrors)
    {
      r := SyncResult(inserts, updates, deletes, authenticationErrors, networkErrors, otherErrors);
    }
  }
}
