/** The message-queue façade: routes each call to a named queue table and
    keeps one lazily created inserter or processor per queue. The queue
    store itself (insert, take-for-processing, mark-done) lives outside this
    code; its façades here record each call they forward and hand back the
    store's reply, which is a parameter. */
module MessageQueueRepository {
  import opened Wrappers
  import opened Strings
  import opened Json
  import opened ConnectionSettings
  import EventRouting
  import RefererRouting

  /** The connection descriptor handed to every inserter and processor. */
  datatype TenantDatabaseConnectionInfo =
    TenantDatabaseConnectionInfo(host: string, port: string, database: string, user: string, password: string)

  /** A message handed back to the caller. */
  datatype IdAndJObject = IdAndJObject(id: int, jObject: JValue)

  /** Validates the connection string: host, database, user name and password
      must all be set; they are then copied verbatim and the port rendered
      as text. */
  function BuildDbConnection(connectionString: Settings): (r: Result<TenantDatabaseConnectionInfo>)
    ensures r.Ok? <==> connectionString.host != [] && connectionString.database != []
                       && connectionString.username != [] && connectionString.password != []
    ensures r.Err? ==> r.error == ArgumentException("Connection string is missing required components")
    ensures r.Ok? ==> r.value.host == connectionString.host && r.value.database == connectionString.database
                      && r.value.user == connectionString.username && r.value.password == connectionString.password
                      && r.value.port == IntToText(connectionString.port)
  {
    if connectionString.host == [] || connectionString.database == []
       || connectionString.username == [] || connectionString.password == []
    then Err(ArgumentException("Connection string is missing required components"))
    else Ok(TenantDatabaseConnectionInfo(connectionString.host, IntToText(connectionString.port),
                                         connectionString.database, connectionString.username,
                                         connectionString.password))
  }

  /** `ids.First()` on the ids the store returned for a one-element batch. */
  function FirstId(ids: Result<seq<int>>): (r: Result<int>)
    ensures r.Ok? <==> ids.Ok? && ids.value != []
    ensures r.Ok? ==> r.value == ids.value[0]
    ensures ids.Err? ==> r == Err(ids.error)
  {
    match ids
    case Err(e) => Err(e)
    case Ok(s) => if s == [] then Err(InvalidOperationException("Sequence contains no elements")) else Ok(s[0])
  }

  /** The `Select` that turns the store's (id, element) pairs into the
      returned messages: same order, ids and payloads unchanged. */
  function ToIdAndJObjects(results: seq<(int, JValue)>): (r: seq<IdAndJObject>)
    ensures |r| == |results|
    ensures forall i :: 0 <= i < |results| ==> r[i].id == results[i].0 && r[i].jObject == results[i].1
  {
    if results == [] then []
    else [IdAndJObject(results[0].0, results[0].1)] + ToIdAndJObjects(results[1..])
  }

  /** Façade over one queue table for inserting. */
  class QueueInserter {
    const queueName: string
    const connectionInfo: TenantDatabaseConnectionInfo
    /** The batches forwarded to the store, in call order. */
    var batches: seq<seq<JValue>>

    constructor (queueName: string, connectionInfo: TenantDatabaseConnectionInfo)
      ensures this.queueName == queueName && this.connectionInfo == connectionInfo
      ensures batches == []
    {
      this.queueName := queueName;
      this.connectionInfo := connectionInfo;
      batches := [];
    }

    /** Forwards `batch` to the store; `reply` is the store's answer. */
    method Insert(batch: seq<JValue>, reply: Result<seq<int>>) returns (ids: Result<seq<int>>)
      modifies this
      ensures batches == old(batches) + [batch]
      ensures ids == reply
    {
      batches := batches + [batch];
      ids := reply;
    }
  }

  /** Façade over one queue table for taking and completing elements. */
  class QueueProcessor {
    const queueName: string
    const connectionInfo: TenantDatabaseConnectionInfo
    /** The counts asked of the store, in call order. */
    var takeRequests: seq<int>
    /** The (id, result text) pairs reported done, in call order. */
    var doneReports: seq<(int, string)>

    constructor (queueName: string, connectionInfo: TenantDatabaseConnectionInfo)
      ensures this.queueName == queueName && this.connectionInfo == connectionInfo
      ensures takeRequests == [] && doneReports == []
    {
      this.queueName := queueName;
      this.connectionInfo := connectionInfo;
      takeRequests := [];
      doneReports := [];
    }

    method TakeElementsForProcessing(count: int, reply: Result<seq<(int, JValue)>>)
      returns (elements: Result<seq<(int, JValue)>>)
      modifies this
      ensures takeRequests == old(takeRequests) + [count] && doneReports == old(doneReports)
      ensures elements == reply
    {
      takeRequests := takeRequests + [count];
      elements := reply;
    }

    method MakeElementDone(id: int, resultText: string, reply: Result<()>) returns (done: Result<()>)
      modifies this
      ensures doneReports == old(doneReports) + [(id, resultText)] && takeRequests == old(takeRequests)
      ensures done == reply
    {
      doneReports := doneReports + [(id, resultText)];
      done := reply;
    }
  }

  class MessageQueueRepo {
    const connectionString: Settings
    var queueInserters: map<string, QueueInserter>
    var queueProcessors: map<string, QueueProcessor>

    /** Every cached façade serves the queue it is filed under and carries
        the validated descriptor of the repository's connection string. */
    ghost predicate Valid()
      reads this
    {
      && (forall q :: q in queueInserters ==>
            queueInserters[q].queueName == q && BuildDbConnection(connectionString) == Ok(queueInserters[q].connectionInfo))
      && (forall q :: q in queueProcessors ==>
            queueProcessors[q].queueName == q && BuildDbConnection(connectionString) == Ok(queueProcessors[q].connectionInfo))
    }

    constructor (connectionString: Settings)
      ensures Valid()
      ensures this.connectionString == connectionString
      ensures queueInserters == map[] && queueProcessors == map[]
    {
      this.connectionString := connectionString;
      queueInserters := map[];
      queueProcessors := map[];
    }

    /** Routes `message` by its event name and inserts it as a one-element
        batch, creating and caching the queue's inserter on first use. */
    method EnqueueMessage(message: JValue, eventName: string, reply: Result<seq<int>>) returns (r: Result<int>)
      requires Valid()
      modifies this, queueInserters.Values
      ensures Valid()
      ensures queueProcessors == old(queueProcessors)
      // an unknown event fails in the mapper: no cache entry, no insert
      ensures EventRouting.GetDbTableForEventName(eventName).Err? ==>
                r == Err(EventRouting.GetDbTableForEventName(eventName).error)
                && queueInserters == old(queueInserters)
                && forall q :: q in queueInserters ==> queueInserters[q].batches == old(queueInserters[q].batches)
      // a known event: at most the resolved queue is added, nothing is replaced
      ensures EventRouting.GetDbTableForEventName(eventName).Ok? ==>
                var q := EventRouting.GetDbTableForEventName(eventName).value;
                && (forall k :: k in old(queueInserters) ==> k in queueInserters && queueInserters[k] == old(queueInserters[k]))
                && (forall k :: k in old(queueInserters) && k != q ==> queueInserters[k].batches == old(queueInserters[k].batches))
                && (if q !in old(queueInserters) && BuildDbConnection(connectionString).Err? then
                      r == Err(BuildDbConnection(connectionString).error) && queueInserters == old(queueInserters)
                    else
                      && queueInserters.Keys == old(queueInserters).Keys + {q}
                      && (q !in old(queueInserters) ==> fresh(queueInserters[q]) && queueInserters[q].batches == [[message]])
                      && (q in old(queueInserters) ==> queueInserters[q].batches == old(queueInserters[q].batches) + [[message]])
                      && r == FirstId(reply))
    {
      var routed := EventRouting.GetDbTableForEventName(eventName);
      if routed.Err? {
        return Err(routed.error);
      }
      var queueName := routed.value;
      var inserter: QueueInserter;
      if queueName in queueInserters {
        inserter := queueInserters[queueName];
      } else {
        var connectionInfo := BuildDbConnection(connectionString);
        if connectionInfo.Err? {
          return Err(connectionInfo.error);
        }
        inserter := new QueueInserter(queueName, connectionInfo.value);
        queueInserters := queueInserters[queueName := inserter];
      }
      var ids := inserter.Insert([message], reply);
      r := FirstId(ids);
    }

    /** The processor of the queue the referer drains, created and cached on
        first use; shared by `DequeueMessages` and `MarkMessageAsDone`. */
    method ProcessorFor(referer: string) returns (r: Result<QueueProcessor>)
      requires Valid()
      modifies this`queueProcessors
      ensures Valid()
      ensures RefererRouting.GetQueueTableName(referer).Err? ==>
                r == Err(RefererRouting.GetQueueTableName(referer).error) && queueProcessors == old(queueProcessors)
      ensures RefererRouting.GetQueueTableName(referer).Ok? ==>
                var q := RefererRouting.GetQueueTableName(referer).value;
                && (forall k :: k in old(queueProcessors) ==> k in queueProcessors && queueProcessors[k] == old(queueProcessors[k]))
                && (if q !in old(queueProcessors) && BuildDbConnection(connectionString).Err? then
                      r == Err(BuildDbConnection(connectionString).error) && queueProcessors == old(queueProcessors)
                    else
                      && queueProcessors.Keys == old(queueProcessors).Keys + {q}
                      && r == Ok(queueProcessors[q])
                      && (q !in old(queueProcessors) ==>
                            fresh(queueProcessors[q]) && queueProcessors[q].takeRequests == [] && queueProcessors[q].doneReports == []))
    {
      var routed := RefererRouting.GetQueueTableName(referer);
      if routed.Err? {
        return Err(routed.error);
      }
      var queueName := routed.value;
      if queueName in queueProcessors {
        return Ok(queueProcessors[queueName]);
      }
      var connectionInfo := BuildDbConnection(connectionString);
      if connectionInfo.Err? {
        return Err(connectionInfo.error);
      }
      var processor := new QueueProcessor(queueName, connectionInfo.value);
      queueProcessors := queueProcessors[queueName := processor];
      r := Ok(processor);
    }

    /** Takes up to `count` elements from the queue the referer drains and
        returns them in the store's order, ids and payloads unchanged. */
    method DequeueMessages(referer: string, count: int, reply: Result<seq<(int, JValue)>>)
      returns (r: Result<seq<IdAndJObject>>)
      requires Valid()
      modifies this, queueProcessors.Values
      ensures Valid()
      ensures queueInserters == old(queueInserters)
      ensures forall k :: k in old(queueProcessors) ==> k in queueProcessors && queueProcessors[k] == old(queueProcessors[k])
      // an unroutable referer fails in the mapper: no processor is added or called
      ensures RefererRouting.GetQueueTableName(referer).Err? ==>
                && r == Err(RefererRouting.GetQueueTableName(referer).error)
                && queueProcessors == old(queueProcessors)
                && forall k :: k in queueProcessors ==>
                     queueProcessors[k].takeRequests == old(queueProcessors[k].takeRequests)
                     && queueProcessors[k].doneReports == old(queueProcessors[k].doneReports)
      // an uncached queue with an invalid connection string fails with its
      // error and adds no processor (by Valid(), the cache is then empty)
      ensures RefererRouting.GetQueueTableName(referer).Ok? &&
              RefererRouting.GetQueueTableName(referer).value !in old(queueProcessors) &&
              BuildDbConnection(connectionString).Err? ==>
                r == Err(BuildDbConnection(connectionString).error) && queueProcessors == old(queueProcessors)
      // the processors of other queues are not called
      ensures RefererRouting.GetQueueTableName(referer).Ok? ==>
                forall k :: k in old(queueProcessors) && k != RefererRouting.GetQueueTableName(referer).value ==>
                  queueProcessors[k].takeRequests == old(queueProcessors[k].takeRequests)
                  && queueProcessors[k].doneReports == old(queueProcessors[k].doneReports)
      ensures RefererRouting.GetQueueTableName(referer).Ok? &&
              (RefererRouting.GetQueueTableName(referer).value in old(queueProcessors) || BuildDbConnection(connectionString).Ok?) ==>
                var q := RefererRouting.GetQueueTableName(referer).value;
                && queueProcessors.Keys == old(queueProcessors).Keys + {q}
                && queueProcessors[q].takeRequests ==
                     (if q in old(queueProcessors) then old(queueProcessors[q].takeRequests) else []) + [count]
                && queueProcessors[q].doneReports ==
                     (if q in old(queueProcessors) then old(queueProcessors[q].doneReports) else [])
                && r == (if reply.Err? then Err(reply.error) else Ok(ToIdAndJObjects(reply.value)))
    {
      var processor :- ProcessorFor(referer);
      var results := processor.TakeElementsForProcessing(count, reply);
      if results.Err? {
        return Err(results.error);
      }
      r := Ok(ToIdAndJObjects(results.value));
    }

    /** Reports element `messageId` of the queue the referer drains as done,
        always with the result text "Success". */
    method MarkMessageAsDone(messageId: int, referer: string, reply: Result<()>) returns (r: Result<()>)
      requires Valid()
      modifies this, queueProcessors.Values
      ensures Valid()
      ensures queueInserters == old(queueInserters)
      ensures forall k :: k in old(queueProcessors) ==> k in queueProcessors && queueProcessors[k] == old(queueProcessors[k])
      // an unroutable referer fails in the mapper: no processor is added or called
      ensures RefererRouting.GetQueueTableName(referer).Err? ==>
                && r == Err(RefererRouting.GetQueueTableName(referer).error)
                && queueProcessors == old(queueProcessors)
                && forall k :: k in queueProcessors ==>
                     queueProcessors[k].takeRequests == old(queueProcessors[k].takeRequests)
                     && queueProcessors[k].doneReports == old(queueProcessors[k].doneReports)
      // an uncached queue with an invalid connection string fails with its
      // error and adds no processor (by Valid(), the cache is then empty)
      ensures RefererRouting.GetQueueTableName(referer).Ok? &&
              RefererRouting.GetQueueTableName(referer).value !in old(queueProcessors) &&
              BuildDbConnection(connectionString).Err? ==>
                r == Err(BuildDbConnection(connectionString).error) && queueProcessors == old(queueProcessors)
      // the processors of other queues are not called
      ensures RefererRouting.GetQueueTableName(referer).Ok? ==>
                forall k :: k in old(queueProcessors) && k != RefererRouting.GetQueueTableName(referer).value ==>
                  queueProcessors[k].takeRequests == old(queueProcessors[k].takeRequests)
                  && queueProcessors[k].doneReports == old(queueProcessors[k].doneReports)
      ensures RefererRouting.GetQueueTableName(referer).Ok? &&
              (RefererRouting.GetQueueTableName(referer).value in old(queueProcessors) || BuildDbConnection(connectionString).Ok?) ==>
                var q := RefererRouting.GetQueueTableName(referer).value;
                && queueProcessors.Keys == old(queueProcessors).Keys + {q}
                && queueProcessors[q].doneReports ==
                     (if q in old(queueProcessors) then old(queueProcessors[q].doneReports) else []) + [(messageId, "Success")]
                && queueProcessors[q].takeRequests ==
                     (if q in old(queueProcessors) then old(queueProcessors[q].takeRequests) else [])
                && r == reply
    {
      var processor :- ProcessorFor(referer);
      r := processor.MakeElementDone(messageId, "Success", reply);
    }
  }
}
