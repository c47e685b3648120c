/** The mock server's partitioned log: two dictionaries of dictionaries, changed only by
    adding a topic, adding a partition, and appending one entry.
 */
module MockStore {
  import opened Bytes
  import opened Options

  datatype Entry = Entry(offset: int, batchOffset: int, payload: bytes, timestamp: int)

  type Log = seq<Entry>

  datatype Store = Store(messages: map<string, map<int, Log>>, offsets: map<string, map<int, int>>)

  predicate HasTopic(st: Store, t: string) {
    t in st.messages && t in st.offsets
  }

  predicate HasPartition(st: Store, t: string, p: int) {
    HasTopic(st, t) && p in st.messages[t] && p in st.offsets[t]
  }

  /** The two dictionaries describe the same logs, and entries carry their position. */
  ghost predicate LogInv(st: Store) {
    forall t, p :: LogInvAt(st, t, p)
  }

  ghost predicate LogInvAt(st: Store, t: string, p: int) {
    && (t in st.messages <==> t in st.offsets)
    && (HasTopic(st, t) ==> (p in st.messages[t] <==> p in st.offsets[t]))
    && (HasPartition(st, t, p) ==> LogOk(st.messages[t][p], st.offsets[t][p]))
  }

  ghost predicate LogOk(log: Log, next: int) {
    next == |log| && forall i :: 0 <= i < |log| ==> log[i].offset == i
  }

  function LogOf(st: Store, t: string, p: int): Log {
    if t in st.messages && p in st.messages[t] then st.messages[t][p] else []
  }

  function AddTopic(st: Store, t: string): Store {
    if t in st.messages then st
    else Store(st.messages[t := map[]], st.offsets[t := map[]])
  }

  function AddPartition(st: Store, t: string, p: int): Store
    requires HasTopic(st, t)
  {
    if p in st.messages[t] then st
    else Store(st.messages[t := st.messages[t][p := []]], st.offsets[t := st.offsets[t][p := 0]])
  }

  function Append(st: Store, t: string, p: int, batchOffset: int, payload: bytes): Store
    requires HasPartition(st, t, p)
  {
    var next := st.offsets[t][p];
    var log := st.messages[t][p] + [Entry(next, batchOffset, payload, -1)];
    Store(st.messages[t := st.messages[t][p := log]], st.offsets[t := st.offsets[t][p := next + 1]])
  }

  /** Every log of `a` is a prefix of the same log of `b`. */
  ghost predicate Grows(a: Store, b: Store) {
    forall t, p :: LogOf(a, t, p) <= LogOf(b, t, p)
  }

  lemma GrowsRefl(st: Store)
    ensures Grows(st, st)
  {
  }

  lemma GrowsTrans(a: Store, b: Store, c: Store)
    requires Grows(a, b) && Grows(b, c)
    ensures Grows(a, c)
  {
    forall t, p ensures LogOf(a, t, p) <= LogOf(c, t, p) {
      assert LogOf(a, t, p) <= LogOf(b, t, p) <= LogOf(c, t, p);
    }
  }

  /** Between `a` and `b` the log of one partition stayed consistent and only grew. */
  ghost predicate KeptAt(a: Store, b: Store, t: string, p: int) {
    LogInvAt(a, t, p) ==> LogInvAt(b, t, p) && LogOf(a, t, p) <= LogOf(b, t, p)
  }

  lemma KeptTrans(a: Store, b: Store, c: Store, t: string, p: int)
    requires KeptAt(a, b, t, p) && KeptAt(b, c, t, p)
    ensures KeptAt(a, c, t, p)
  {
  }

  lemma AddTopicKeeps(st: Store, t: string, u: string, q: int)
    ensures KeptAt(st, AddTopic(st, t), u, q)
  {
  }

  lemma AddPartitionKeeps(st: Store, t: string, p: int, u: string, q: int)
    requires HasTopic(st, t)
    ensures KeptAt(st, AddPartition(st, t, p), u, q)
  {
  }

  lemma AppendKeeps(st: Store, t: string, p: int, batchOffset: int, payload: bytes, u: string, q: int)
    requires HasPartition(st, t, p)
    ensures KeptAt(st, Append(st, t, p, batchOffset, payload), u, q)
  {
  }

  lemma AppendFacts(st: Store, t: string, p: int, batchOffset: int, payload: bytes, u: string, q: int)
    requires HasPartition(st, t, p) && LogInvAt(st, u, q)
    ensures var r := Append(st, t, p, batchOffset, payload);
            && HasPartition(r, t, p) && LogInvAt(r, u, q)
            && LogOf(r, u, q) ==
               LogOf(st, u, q) +
               if u == t && q == p then [Entry(|LogOf(st, t, p)|, batchOffset, payload, -1)] else []
  {
  }
}
