/** `getToolExecutor`: one executor per process, created and initialised on first use
    (src/lib/tool-executor-singleton.ts:4-12). The module-level `instance` becomes a field of
    a registry, which also holds what a new executor needs. */
module ToolExecutorSingleton {
  import opened Wrappers
  import opened Retail
  import opened OramaAdapter
  import opened AiTools

  class ExecutorRegistry {
    var instance: ToolExecutor?
    const db: AccountStore
    const engine: Engine
    const embed: Embedder
    const parseDate: DateParser
    /** How many executors have been constructed. */
    ghost var constructed: nat

    ghost predicate Valid()
      reads this, if instance == null then {} else {instance, instance.client}
    {
      instance != null ==> instance.Valid() && instance.client.db == db
    }

    constructor(db: AccountStore, engine: Engine, embed: Embedder, parseDate: DateParser)
      ensures this.db == db && this.engine == engine && this.embed == embed && this.parseDate == parseDate
      ensures instance == null && constructed == 0
      ensures Valid()
    {
      this.db := db;
      this.engine := engine;
      this.embed := embed;
      this.parseDate := parseDate;
      instance := null;
      constructed := 0;
    }

    /** The first call constructs the executor, stores it and then initialises it; an error
        of that initialisation is passed on, but the stored executor stays. Every later call
        returns the stored executor untouched. */
    method GetToolExecutor() returns (r: Result<ToolExecutor>)
      requires Valid()
      modifies this, db
      ensures Valid() && instance != null
      ensures r.Success? ==> r.value == instance
      ensures old(instance) != null ==>
                && r == Success(old(instance))
                && instance == old(instance)
                && unchanged(old(instance), old(instance).client)
                && db.accounts == old(db.accounts)
                && constructed == old(constructed)
      ensures old(instance) == null ==>
                && fresh(instance) && fresh(instance.client)
                && constructed == old(constructed) + 1
                && instance.initializations == 1
                && (r.Success? <==> instance.isInitialized)
                && (r.Failure? <==> MainIndexAccount !in old(db.accounts))
                && (r.Failure? ==> r == Failure(AccountNotFound))
                && Started(MainIndexAccount, old(db.accounts), None, instance.client.orama, db.accounts)
    {
      if instance == null {
        var executor := new ToolExecutor(db, engine, embed, parseDate);
        instance := executor;
        constructed := constructed + 1;
        var outcome := executor.Initialize();
        if outcome.Fail? {
          return Failure(outcome.error);
        }
      }
      r := Success(instance);
    }

    /** When the first initialisation fails, the second call neither constructs nor
        initialises anything: it hands back the uninitialised executor, whose next tool call
        then initialises it. */
    method FailedStartIsKept() returns (first: Result<ToolExecutor>, second: Result<ToolExecutor>)
      requires Valid() && instance == null
      requires MainIndexAccount !in db.accounts
      modifies this, db
      ensures first == Failure(AccountNotFound)
      ensures second.Success? && second.value == instance
      ensures !second.value.isInitialized && second.value.initializations == 1
      ensures constructed == old(constructed) + 1
    {
      first := GetToolExecutor();
      second := GetToolExecutor();
    }
  }
}
