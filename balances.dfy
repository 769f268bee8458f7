/** The wallet view of the ledger (`compute_balances` and `get_balance`): every block whose
    payload carries a non-empty `transaction` debits its `sender_id` and credits its
    `receiver_id` with its `amount`. The result is a Python dict, modelled as a sequence of
    entries in insertion order whose keys are compared as Python compares dict keys. */
module Wallets {
  import opened PyJson

  /** The identity of a hashable value as a dict key: 1, 1.0 and True are the same key. */
  datatype Key = NullKey | NumKey(r: real) | StrKey(s: string)

  function KeyOf(v: Json): Key
    requires Hashable(v)
  {
    match v
    case JNull => NullKey
    case JBool(b) => NumKey(if b then 1.0 else 0.0)
    case JInt(i) => NumKey(i as real)
    case JFloat(r) => NumKey(r)
    case JStr(s) => StrKey(s)
  }

  /** Two hashable values are the same dict key exactly when Python's `==` holds between them. */
  lemma KeyOfIsPyEq(a: Json, b: Json)
    requires Hashable(a) && Hashable(b)
    ensures PyEq(a, b) <==> KeyOf(a) == KeyOf(b)
  {
  }

  /** One `wallet: balance` pair of the dict; the wallet is the key first inserted. */
  datatype Entry = Entry(wallet: Json, balance: real)

  type Balances = seq<Entry>

  predicate AllHashable(bal: Balances)
  {
    forall k :: 0 <= k < |bal| ==> Hashable(bal[k].wallet)
  }

  /** A well-formed dict: hashable keys, no two of them equal. */
  predicate WellFormed(bal: Balances)
  {
    && AllHashable(bal)
    && forall i, j :: 0 <= i < j < |bal| ==> KeyOf(bal[i].wallet) != KeyOf(bal[j].wallet)
  }

  /** Where key `w` sits in the dict, or -1. */
  function IndexOf(bal: Balances, w: Json): (r: int)
    requires AllHashable(bal) && Hashable(w)
    ensures -1 <= r < |bal|
    ensures r >= 0 ==> KeyOf(bal[r].wallet) == KeyOf(w)
  {
    IndexBelow(bal, w, |bal|)
  }

  /** Where key `w` sits among the first `n` entries, or -1. */
  function IndexBelow(bal: Balances, w: Json, n: int): (r: int)
    requires AllHashable(bal) && Hashable(w) && 0 <= n <= |bal|
    ensures -1 <= r < n
    ensures r >= 0 ==> KeyOf(bal[r].wallet) == KeyOf(w)
  {
    if n == 0 then -1
    else
      var r := IndexBelow(bal, w, n - 1);
      if r >= 0 then r
      else if KeyOf(bal[n - 1].wallet) == KeyOf(w) then n - 1
      else -1
  }

  lemma {:induction false} IndexBelowFirst(bal: Balances, w: Json, n: int)
    requires AllHashable(bal) && Hashable(w) && 0 <= n <= |bal|
    ensures forall k :: 0 <= k < n && (IndexBelow(bal, w, n) < 0 || k < IndexBelow(bal, w, n)) ==> KeyOf(bal[k].wallet) != KeyOf(w)
  {
    if n > 0 {
      IndexBelowFirst(bal, w, n - 1);
    }
  }

  /** `IndexOf` finds the first entry with key `w`, and -1 only when there is none. */
  lemma IndexOfFirst(bal: Balances, w: Json)
    requires AllHashable(bal) && Hashable(w)
    ensures forall k :: 0 <= k < |bal| && (IndexOf(bal, w) < 0 || k < IndexOf(bal, w)) ==> KeyOf(bal[k].wallet) != KeyOf(w)
  {
    IndexBelowFirst(bal, w, |bal|);
  }

  /** `balances.get(w, 0.0)` */
  function Lookup(bal: Balances, w: Json): (r: real)
    requires AllHashable(bal) && Hashable(w)
    ensures (forall k :: 0 <= k < |bal| ==> KeyOf(bal[k].wallet) != KeyOf(w)) ==> r == 0.0
  {
    var i := IndexOf(bal, w);
    if i >= 0 then bal[i].balance else 0.0
  }

  /** In a dict with distinct keys, `get` finds the entry whose key equals `w`. */
  lemma LookupFinds(bal: Balances, w: Json, k: int)
    requires WellFormed(bal) && Hashable(w)
    requires 0 <= k < |bal| && KeyOf(bal[k].wallet) == KeyOf(w)
    ensures Lookup(bal, w) == bal[k].balance
  {
    IndexOfFirst(bal, w);
  }

  /** `balances[w] = v`: an existing equal key keeps its place and its original object; a new
      key goes at the end. */
  function Put(bal: Balances, w: Json, v: real): (r: Balances)
    requires AllHashable(bal) && Hashable(w)
    ensures AllHashable(r)
  {
    var i := IndexOf(bal, w);
    if i >= 0 then bal[i := Entry(bal[i].wallet, v)] else bal + [Entry(w, v)]
  }

  /** After `balances[w] = v`, key `w` maps to `v` and every other key keeps its value. */
  lemma PutLookup(bal: Balances, w: Json, v: real, u: Json)
    requires AllHashable(bal) && Hashable(w) && Hashable(u)
    ensures Lookup(Put(bal, w, v), u) == if KeyOf(u) == KeyOf(w) then v else Lookup(bal, u)
  {
    var i := IndexOf(bal, w);
    var r := Put(bal, w, v);
    var j := IndexOf(r, u);
    IndexOfFirst(bal, w);
    IndexOfFirst(bal, u);
    IndexOfFirst(r, u);
    if i >= 0 {
      assert forall k :: 0 <= k < |r| ==> r[k].wallet == bal[k].wallet;
      assert j == IndexOf(bal, u) by {
        IndexOfSameWallets(bal, r, u);
      }
    } else {
      assert r[..|r| - 1] == bal;
    }
  }

  lemma IndexOfSameWallets(a: Balances, b: Balances, u: Json)
    requires AllHashable(a) && AllHashable(b) && Hashable(u)
    requires |a| == |b| && forall k :: 0 <= k < |a| ==> a[k].wallet == b[k].wallet
    ensures IndexOf(a, u) == IndexOf(b, u)
  {
    var i, j := IndexOf(a, u), IndexOf(b, u);
    IndexOfFirst(a, u);
    IndexOfFirst(b, u);
    if i >= 0 && j >= 0 {
      assert !(i < j) && !(j < i);
    }
  }

  /** Assignment keeps the keys distinct. */
  lemma PutWellFormed(bal: Balances, w: Json, v: real)
    requires WellFormed(bal) && Hashable(w)
    ensures WellFormed(Put(bal, w, v))
  {
    IndexOfFirst(bal, w);
  }

  /** The sum of all balances. */
  function Total(bal: Balances): real
  {
    SumTo(bal, |bal|)
  }

  /** The sum of the first `n` balances. */
  function SumTo(bal: Balances, n: int): real
    requires 0 <= n <= |bal|
  {
    if n == 0 then 0.0 else SumTo(bal, n - 1) + bal[n - 1].balance
  }

  lemma {:induction false} SumToUpdate(bal: Balances, i: int, e: Entry, n: int)
    requires 0 <= i < |bal| && 0 <= n <= |bal|
    ensures SumTo(bal[i := e], n) == SumTo(bal, n) + (if i < n then e.balance - bal[i].balance else 0.0)
  {
    if n > 0 {
      SumToUpdate(bal, i, e, n - 1);
    }
  }

  lemma {:induction false} SumToAppend(bal: Balances, e: Entry, n: int)
    requires 0 <= n <= |bal|
    ensures SumTo(bal + [e], n) == SumTo(bal, n)
  {
    if n > 0 {
      SumToAppend(bal, e, n - 1);
    }
  }

  /** Assigning `v` to key `w` changes the sum by `v` minus what `w` held. */
  lemma PutTotal(bal: Balances, w: Json, v: real)
    requires AllHashable(bal) && Hashable(w)
    ensures Total(Put(bal, w, v)) == Total(bal) - Lookup(bal, w) + v
  {
    var i := IndexOf(bal, w);
    if i >= 0 {
      SumToUpdate(bal, i, Entry(bal[i].wallet, v), |bal|);
    } else {
      SumToAppend(bal, Entry(w, v), |bal|);
    }
  }

  // ---------------------------------------------------------------------------------------
  // What one block contributes
  // ---------------------------------------------------------------------------------------

  /** The debit and credit a transaction block asks for. */
  datatype Posting = Posting(sender: Json, receiver: Json, amount: real)

  /** `float(tx.get("amount", 0) or 0)`, with any exception read as 0.0. */
  function AmountOf(py: Builtins, tx: Dict): (a: real)
    ensures "amount" !in tx || !Truthy(tx["amount"]) ==> a == 0.0
    ensures "amount" in tx && tx["amount"].JFloat? ==> a == tx["amount"].r
    ensures "amount" in tx && tx["amount"].JInt? && (if tx["amount"].i < 0 then -tx["amount"].i else tx["amount"].i) < FloatOverflowBound
            ==> a == tx["amount"].i as real
  {
    match PyFloat(py, Or(Get(tx, "amount", JInt(0)), JInt(0)))
    case Ok(x) => x
    case Raise(_) => 0.0
  }

  /** What one block asks of the balances: nothing (`None`) when its payload holds no
      transaction, a posting otherwise, or the AttributeError of calling `.get` on a payload or
      transaction that is not a dict. */
  function PostingOf(py: Builtins, b: Dict): (r: Conv<Option<Posting>>)
    ensures r.Raise? ==> r.error == AttributeError
    ensures r == Ok(None) <==>
              var data := Or(Get(b, "data", JObj(map[])), JObj(map[]));
              data.JObj? && !Truthy(Get(data.fields, "transaction", JObj(map[])))
  {
    var data := Or(Get(b, "data", JObj(map[])), JObj(map[]));
    if !data.JObj? then Raise(AttributeError)
    else
      var tx := Or(Get(data.fields, "transaction", JObj(map[])), JObj(map[]));
      if !Truthy(tx) then Ok(None)
      else if !tx.JObj? then Raise(AttributeError)
      else Ok(Some(Posting(Get(tx.fields, "sender_id", JNull), Get(tx.fields, "receiver_id", JNull), AmountOf(py, tx.fields))))
  }

  /** `if w: balances[w] = balances.get(w, 0.0) + delta`; an unhashable wallet raises TypeError. */
  function Post(bal: Balances, w: Json, delta: real): (r: Conv<Balances>)
    requires AllHashable(bal)
    ensures r.Ok? ==> AllHashable(r.value)
    ensures r.Raise? <==> Truthy(w) && !Hashable(w)
  {
    if !Truthy(w) then Ok(bal)
    else if !Hashable(w) then Raise(TypeError)
    else Ok(Put(bal, w, Lookup(bal, w) + delta))
  }

  /** The debit, then the credit. */
  function Apply(bal: Balances, p: Posting): (r: Conv<Balances>)
    requires AllHashable(bal)
    ensures r.Ok? ==> AllHashable(r.value)
  {
    match Post(bal, p.sender, -p.amount)
    case Raise(e) => Raise(e)
    case Ok(debited) => Post(debited, p.receiver, p.amount)
  }

  /** One iteration of the loop over the chain. */
  function Step(py: Builtins, bal: Balances, b: Dict): (r: Conv<Balances>)
    requires AllHashable(bal)
    ensures r.Ok? ==> AllHashable(r.value)
  {
    match PostingOf(py, b)
    case Raise(e) => Raise(e)
    case Ok(None) => Ok(bal)
    case Ok(Some(p)) => Apply(bal, p)
  }

  /** The balances after the blocks of `chain`, taken in order, or the exception that stops it. */
  function BalancesOf(py: Builtins, chain: seq<Dict>): (r: Conv<Balances>)
    ensures r.Ok? ==> AllHashable(r.value)
  {
    if chain == [] then Ok([])
    else
      match BalancesOf(py, chain[..|chain| - 1])
      case Raise(e) => Raise(e)
      case Ok(bal) => Step(py, bal, chain[|chain| - 1])
  }

  // ---------------------------------------------------------------------------------------
  // A reference reading of the balances, and conservation
  // ---------------------------------------------------------------------------------------

  /** How much a posting credits (positive) or debits (negative) wallet `w`. */
  function Flow(p: Posting, w: Json): real
    requires Hashable(w)
  {
    (if Truthy(p.receiver) && Hashable(p.receiver) && KeyOf(p.receiver) == KeyOf(w) then p.amount else 0.0)
    - (if Truthy(p.sender) && Hashable(p.sender) && KeyOf(p.sender) == KeyOf(w) then p.amount else 0.0)
  }

  /** How much block `b` moves into wallet `w`. */
  function BlockFlow(py: Builtins, b: Dict, w: Json): real
    requires Hashable(w)
  {
    match PostingOf(py, b)
    case Ok(Some(p)) => Flow(p, w)
    case _ => 0.0
  }

  /** The sum, over the transaction blocks of `chain`, of what they move into `w`. */
  function NetFlow(py: Builtins, chain: seq<Dict>, w: Json): real
    requires Hashable(w)
  {
    if chain == [] then 0.0 else NetFlow(py, chain[..|chain| - 1], w) + BlockFlow(py, chain[|chain| - 1], w)
  }

  /** What one debit or credit does to one wallet. */
  lemma PostLookup(bal: Balances, w: Json, delta: real, u: Json)
    requires AllHashable(bal) && Hashable(u) && Post(bal, w, delta).Ok?
    ensures Lookup(Post(bal, w, delta).value, u)
            == Lookup(bal, u) + (if Truthy(w) && Hashable(w) && KeyOf(w) == KeyOf(u) then delta else 0.0)
  {
    if Truthy(w) {
      assert Post(bal, w, delta) == Ok(Put(bal, w, Lookup(bal, w) + delta));
      PutLookup(bal, w, Lookup(bal, w) + delta, u);
      if KeyOf(w) == KeyOf(u) {
        IndexOfFirst(bal, w);
        IndexOfFirst(bal, u);
      }
    } else {
      assert Post(bal, w, delta) == Ok(bal);
    }
  }

  lemma PutAddTotal(bal: Balances, w: Json, delta: real)
    requires AllHashable(bal) && Hashable(w)
    ensures Total(Put(bal, w, Lookup(bal, w) + delta)) == Total(bal) + delta
  {
    PutTotal(bal, w, Lookup(bal, w) + delta);
  }

  /** What one debit or credit does to the sum. */
  lemma PostTotal(bal: Balances, w: Json, delta: real)
    requires AllHashable(bal) && Post(bal, w, delta).Ok?
    ensures Total(Post(bal, w, delta).value) == Total(bal) + (if Truthy(w) then delta else 0.0)
  {
    if Truthy(w) {
      assert Post(bal, w, delta) == Ok(Put(bal, w, Lookup(bal, w) + delta));
      PutAddTotal(bal, w, delta);
    } else {
      assert Post(bal, w, delta) == Ok(bal);
    }
  }

  /** A posting that goes through is its debit followed by its credit. */
  lemma ApplySteps(bal: Balances, p: Posting)
    requires AllHashable(bal) && Apply(bal, p).Ok?
    ensures Post(bal, p.sender, -p.amount).Ok?
    ensures AllHashable(Post(bal, p.sender, -p.amount).value)
    ensures Apply(bal, p) == Post(Post(bal, p.sender, -p.amount).value, p.receiver, p.amount)
  {
  }

  /** What a posting does to one wallet. */
  lemma ApplyLookup(bal: Balances, p: Posting, w: Json)
    requires AllHashable(bal) && Hashable(w) && Apply(bal, p).Ok?
    ensures Lookup(Apply(bal, p).value, w) == Lookup(bal, w) + Flow(p, w)
  {
    ApplySteps(bal, p);
    var debited := Post(bal, p.sender, -p.amount).value;
    PostLookup(bal, p.sender, -p.amount, w);
    PostLookup(debited, p.receiver, p.amount, w);
  }

  /** What a posting does to the sum. */
  lemma ApplyTotal(bal: Balances, p: Posting)
    requires AllHashable(bal) && Apply(bal, p).Ok?
    ensures Total(Apply(bal, p).value)
            == Total(bal) - (if Truthy(p.sender) then p.amount else 0.0) + (if Truthy(p.receiver) then p.amount else 0.0)
  {
    ApplySteps(bal, p);
    var debited := Post(bal, p.sender, -p.amount).value;
    var credited := Apply(bal, p).value;
    assert Post(bal, p.sender, -p.amount) == Ok(debited);
    assert Post(debited, p.receiver, p.amount) == Ok(credited);
    DebitThenCreditTotal(bal, p.sender, p.receiver, p.amount, debited, credited);
  }

  lemma DebitThenCreditTotal(bal: Balances, sender: Json, receiver: Json, amount: real, debited: Balances, credited: Balances)
    requires AllHashable(bal) && Post(bal, sender, -amount) == Ok(debited)
    requires AllHashable(debited) && Post(debited, receiver, amount) == Ok(credited)
    ensures Total(credited) == Total(bal) - (if Truthy(sender) then amount else 0.0) + (if Truthy(receiver) then amount else 0.0)
  {
    PostTotal(bal, sender, -amount);
    PostTotal(debited, receiver, amount);
  }

  lemma PostWellFormed(bal: Balances, w: Json, delta: real)
    requires WellFormed(bal) && Post(bal, w, delta).Ok?
    ensures WellFormed(Post(bal, w, delta).value)
  {
    if Truthy(w) {
      assert Post(bal, w, delta) == Ok(Put(bal, w, Lookup(bal, w) + delta));
      PutWellFormed(bal, w, Lookup(bal, w) + delta);
    } else {
      assert Post(bal, w, delta) == Ok(bal);
    }
  }

  lemma ApplyWellFormed(bal: Balances, p: Posting)
    requires WellFormed(bal) && Apply(bal, p).Ok?
    ensures WellFormed(Apply(bal, p).value)
  {
    ApplySteps(bal, p);
    var debited := Post(bal, p.sender, -p.amount).value;
    assert Post(bal, p.sender, -p.amount) == Ok(debited);
    PostWellFormed(bal, p.sender, -p.amount);
    PostWellFormed(debited, p.receiver, p.amount);
  }

  /** When the computation completes, a wallet's balance is everything it received minus
      everything it sent; a wallet that never appears has balance 0.0. */
  lemma {:induction false} BalanceIsNetFlow(py: Builtins, chain: seq<Dict>, w: Json)
    requires Hashable(w)
    requires BalancesOf(py, chain).Ok?
    ensures Lookup(BalancesOf(py, chain).value, w) == NetFlow(py, chain, w)
    decreases |chain|
  {
    if chain != [] {
      var front := chain[..|chain| - 1];
      BalanceIsNetFlow(py, front, w);
      var bal := BalancesOf(py, front).value;
      var p := PostingOf(py, chain[|chain| - 1]);
      if p.Ok? && p.value.Some? {
        ApplyLookup(bal, p.value.value, w);
      }
    }
  }

  /** Every posting moves its amount from one wallet to another, so when every transaction
      names both a sender and a receiver the balances sum to zero. */
  lemma {:induction false} BalancesSumToZero(py: Builtins, chain: seq<Dict>)
    requires BalancesOf(py, chain).Ok?
    requires forall k :: 0 <= k < |chain| && PostingOf(py, chain[k]).Ok? && PostingOf(py, chain[k]).value.Some? ==>
               Truthy(PostingOf(py, chain[k]).value.value.sender) && Truthy(PostingOf(py, chain[k]).value.value.receiver)
    ensures Total(BalancesOf(py, chain).value) == 0.0
    decreases |chain|
  {
    if chain != [] {
      var front := chain[..|chain| - 1];
      assert forall k :: 0 <= k < |front| ==> front[k] == chain[k];
      BalancesSumToZero(py, front);
      var bal := BalancesOf(py, front).value;
      var p := PostingOf(py, chain[|chain| - 1]);
      if p.Ok? && p.value.Some? {
        ApplyTotal(bal, p.value.value);
      }
    }
  }

  /** The computed dict never holds two equal keys. */
  lemma {:induction false} BalancesWellFormed(py: Builtins, chain: seq<Dict>)
    requires BalancesOf(py, chain).Ok?
    ensures WellFormed(BalancesOf(py, chain).value)
    decreases |chain|
  {
    if chain != [] {
      var front := chain[..|chain| - 1];
      BalancesWellFormed(py, front);
      var bal := BalancesOf(py, front).value;
      var p := PostingOf(py, chain[|chain| - 1]);
      if p.Ok? && p.value.Some? {
        ApplyWellFormed(bal, p.value.value);
      }
    }
  }

  /** The computation stops with an exception exactly when some block's payload or transaction
      is not a dict, or a truthy sender or receiver is unhashable. */
  lemma {:induction false} BalancesFailOnlyOnMalformedBlocks(py: Builtins, chain: seq<Dict>)
    requires forall k :: 0 <= k < |chain| ==>
               && PostingOf(py, chain[k]).Ok?
               && (PostingOf(py, chain[k]).value.Some? ==>
                     var p := PostingOf(py, chain[k]).value.value;
                     (Truthy(p.sender) ==> Hashable(p.sender)) && (Truthy(p.receiver) ==> Hashable(p.receiver)))
    ensures BalancesOf(py, chain).Ok?
    decreases |chain|
  {
    if chain != [] {
      var front := chain[..|chain| - 1];
      assert forall k :: 0 <= k < |front| ==> front[k] == chain[k];
      BalancesFailOnlyOnMalformedBlocks(py, front);
    }
  }

  /** An exception ends the computation: once a prefix raises, the whole chain raises it. */
  lemma {:induction false} BalancesRaisePersists(py: Builtins, chain: seq<Dict>, k: int)
    requires 0 <= k <= |chain|
    requires BalancesOf(py, chain[..k]).Raise?
    ensures BalancesOf(py, chain) == BalancesOf(py, chain[..k])
    decreases |chain| - k
  {
    if k < |chain| {
      assert chain[..k + 1][..k] == chain[..k];
      BalancesRaisePersists(py, chain, k + 1);
    } else {
      assert chain[..k] == chain;
    }
  }

  /** One more block: the loop's step on the balances so far. */
  lemma BalancesOfPrefixStep(py: Builtins, chain: seq<Dict>, i: int)
    requires 0 <= i < |chain|
    requires BalancesOf(py, chain[..i]).Ok?
    ensures BalancesOf(py, chain[..i + 1]) == Step(py, BalancesOf(py, chain[..i]).value, chain[i])
  {
    assert chain[..i + 1][..i] == chain[..i];
  }

  /** The body of `compute_balances`' loop for one block, updating the dict in place: skip a
      block without a transaction, else debit the sender and credit the receiver. */
  method ApplyBlock(py: Builtins, balances: Balances, block: Dict) returns (r: Conv<Balances>)
    requires AllHashable(balances)
    ensures r == Step(py, balances, block)
  {
    var data := Or(Get(block, "data", JObj(map[])), JObj(map[]));
    if !data.JObj? {
      return Raise(AttributeError);
    }
    var tx := Or(Get(data.fields, "transaction", JObj(map[])), JObj(map[]));
    if !Truthy(tx) {
      return Ok(balances);
    }
    if !tx.JObj? {
      return Raise(AttributeError);
    }
    var sender := Get(tx.fields, "sender_id", JNull);
    var receiver := Get(tx.fields, "receiver_id", JNull);
    var amount := AmountOf(py, tx.fields);
    assert Step(py, balances, block) == Apply(balances, Posting(sender, receiver, amount));
    var bal := balances;
    if Truthy(sender) {
      if !Hashable(sender) {
        return Raise(TypeError);
      }
      bal := Put(bal, sender, Lookup(bal, sender) - amount);
    }
    assert Post(balances, sender, -amount) == Ok(bal);
    ghost var debited := bal;
    if Truthy(receiver) {
      if !Hashable(receiver) {
        return Raise(TypeError);
      }
      bal := Put(bal, receiver, Lookup(bal, receiver) + amount);
    }
    assert Post(debited, receiver, amount) == Ok(bal);
    return Ok(bal);
  }
}
