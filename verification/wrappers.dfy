/** Failure-carrying values shared by every module of the wallet model:
    optional values, results whose error is either a spelled-out message or
    an opaque store fault, and rows read back from a database cursor. */
module Wrappers {

  datatype Option<+T> = None | Some(value: T) {

    /** The wrapped value, or `default` when there is none. */
    function GetOr(default: T): T {
      match this
      case Some(v) => v
      case None => default
    }
  }

  /** An error: a message whose text the service spells out, or a fault
      raised by the database driver whose text the model does not know. */
  datatype Error = Message(text: string) | Fault

  datatype Result<+T> = Ok(value: T) | Err(error: Error)

  /** A document read from a database cursor: it decodes into `T`, or it
      does not. */
  datatype Row<+T> = Decoded(value: T) | Corrupt

  /** JavaScript truthiness of an optional string: present and non-empty. */
  predicate Truthy(s: Option<string>) {
    s.Some? && s.value != ""
  }

  /** Every element of `rows` decodes. */
  predicate AllDecoded<T>(rows: seq<Row<T>>) {
    forall i :: 0 <= i < |rows| ==> rows[i].Decoded?
  }

  /** The rows that decode, in cursor order; the others are skipped. */
  function DecodedValues<T>(rows: seq<Row<T>>): (r: seq<T>)
    ensures |r| <= |rows|
    ensures AllDecoded(rows) ==> |r| == |rows|
    ensures AllDecoded(rows) ==> forall i :: 0 <= i < |rows| ==> r[i] == rows[i].value
  {
    if |rows| == 0 then []
    else (if rows[0].Decoded? then [rows[0].value] else []) + DecodedValues(rows[1..])
  }

  /** Position of the first row that does not decode, or the length of
      the cursor when every row decodes. */
  function FirstCorrupt<T>(rows: seq<Row<T>>): (n: nat)
    ensures n <= |rows|
    ensures AllDecoded(rows[..n])
    ensures n < |rows| <==> !AllDecoded(rows)
    ensures n < |rows| ==> rows[n].Corrupt?
  {
    if |rows| == 0 then 0
    else if rows[0].Corrupt? then 0
    else
      var n := 1 + FirstCorrupt(rows[1..]);
      assert forall i :: 1 <= i < n ==> rows[..n][i] == rows[1..][..n - 1][i - 1];
      n
  }

  /** A cursor in which every document decodes. */
  function AsRows<T>(vs: seq<T>): (r: seq<Row<T>>)
    ensures |r| == |vs|
    ensures AllDecoded(r)
    ensures forall i :: 0 <= i < |vs| ==> r[i] == Decoded(vs[i])
  {
    seq(|vs|, i requires 0 <= i < |vs| => Decoded(vs[i]))
  }

  /** Skipping the corrupt rows of a cursor built from values gives the
      values back. */
  lemma {:induction false} DecodedValuesAsRows<T>(vs: seq<T>)
    ensures DecodedValues(AsRows(vs)) == vs
  {
    if |vs| > 0 {
      assert AsRows(vs)[1..] == AsRows(vs[1..]);
      DecodedValuesAsRows(vs[1..]);
    }
  }

  /** Nothing decodes exactly when every row is corrupt. */
  lemma {:induction false} DecodedValuesEmpty<T>(rows: seq<Row<T>>)
    ensures |DecodedValues(rows)| == 0 <==> forall k :: 0 <= k < |rows| ==> rows[k].Corrupt?
  {
    if |rows| > 0 {
      DecodedValuesEmpty(rows[1..]);
      assert forall k :: 1 <= k < |rows| ==> rows[k] == rows[1..][k - 1];
    }
  }

  /** Skipping distributes over concatenation of cursors. */
  lemma {:induction false} DecodedValuesAppend<T>(a: seq<Row<T>>, b: seq<Row<T>>)
    ensures DecodedValues(a + b) == DecodedValues(a) + DecodedValues(b)
  {
    if |a| > 0 {
      assert (a + b)[1..] == a[1..] + b;
      DecodedValuesAppend(a[1..], b);
    } else {
      assert a + b == b;
    }
  }
}
