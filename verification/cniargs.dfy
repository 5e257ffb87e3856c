/** The CNI_ARGS loop of cmdAdd: which pod an ADD is for. */
module CniArgs {
  import opened Text

  const POD_NAME := "K8S_POD_NAME"
  const POD_NAMESPACE := "K8S_POD_NAMESPACE"

  /** A segment binds a key when it splits on '=' into exactly two parts and the first is that key. */
  predicate Binds(segment: string, key: string) {
    var pair := Split(segment, '=');
    |pair| == 2 && pair[0] == key
  }

  function ValueOf(segment: string): string
    requires |Split(segment, '=')| == 2
  {
    Split(segment, '=')[1]
  }

  /** v is what the last binding segment gives the key, and empty when no segment binds it. */
  predicate IsLastBinding(segments: seq<string>, key: string, v: string) {
    || (v == "" && forall i | 0 <= i < |segments| :: !Binds(segments[i], key))
    || exists i | 0 <= i < |segments| ::
         && Binds(segments[i], key) && ValueOf(segments[i]) == v
         && forall j | i < j < |segments| :: !Binds(segments[j], key)
  }

  lemma LastBindingStep(segments: seq<string>, i: nat, key: string, v: string)
    requires i < |segments| && IsLastBinding(segments[..i], key, v)
    ensures Binds(segments[i], key) ==> IsLastBinding(segments[..i + 1], key, ValueOf(segments[i]))
    ensures !Binds(segments[i], key) ==> IsLastBinding(segments[..i + 1], key, v)
  {
    var before, after := segments[..i], segments[..i + 1];
    assert after[i] == segments[i];
    assert forall j | 0 <= j < i :: after[j] == before[j];
    if Binds(segments[i], key) {
      assert Binds(after[i], key) && forall j | i < j < |after| :: !Binds(after[j], key);
    } else if !(v == "" && forall j | 0 <= j < i :: !Binds(before[j], key)) {
      var m :| 0 <= m < i && Binds(before[m], key) && ValueOf(before[m]) == v
               && forall j | m < j < i :: !Binds(before[j], key);
      assert Binds(after[m], key) && forall j | m < j < |after| :: !Binds(after[j], key);
    }
  }

  /** These are the pieces of the text between its semicolons. */
  predicate Pieces(args: string, segments: seq<string>) {
    |segments| >= 1 && args == Join(segments, ';') && forall i | 0 <= i < |segments| :: Free(segments[i], ';')
  }

  /** A text has one way to be taken to pieces. */
  lemma OnePieces(args: string, segments: seq<string>)
    ensures Pieces(args, segments) <==> segments == Split(args, ';')
  {
    SplitParts(args, ';');
    if Pieces(args, segments) {
      SplitOfJoin(segments, ';');
    }
  }

  /** Which pieces bind a key: the key, one equals sign, and a value without another. */
  lemma BindsExact(segment: string, key: string, v: string)
    requires Free(key, '=')
    ensures Binds(segment, key) && ValueOf(segment) == v <==> segment == key + "=" + v && Free(v, '=')
  {
    if segment == key + "=" + v && Free(v, '=') {
      SplitHead(key, v, '=');
      SplitHead(v, "", '=');
    }
    if Binds(segment, key) && ValueOf(segment) == v {
      SplitParts(segment, '=');
      var pair := Split(segment, '=');
      assert pair == [key, v] && pair[1..] == [v];
      assert Join(pair, '=') == key + "=" + v;
    }
  }

  /** The pod's namespace and name, from the last piece that binds the one or the other key. */
  method ParseArgs(args: string) returns (podNs: string, podName: string)
    ensures forall segments | Pieces(args, segments) ::
              && IsLastBinding(segments, "K8S_POD_NAMESPACE", podNs)
              && IsLastBinding(segments, "K8S_POD_NAME", podName)
    ensures Pieces(args, Split(args, ';'))
  {
    podName, podNs := "", "";
    var mappings := Split(args, ';');
    for i := 0 to |mappings|
      invariant IsLastBinding(mappings[..i], POD_NAMESPACE, podNs)
      invariant IsLastBinding(mappings[..i], POD_NAME, podName)
    {
      LastBindingStep(mappings, i, POD_NAMESPACE, podNs);
      LastBindingStep(mappings, i, POD_NAME, podName);
      var pair := Split(mappings[i], '=');
      if |pair| == 2 {
        if pair[0] == POD_NAMESPACE {
          podNs := pair[1];
        } else if pair[0] == POD_NAME {
          podName := pair[1];
        }
      }
    }
    assert mappings[..|mappings|] == mappings;
    OnePieces(args, mappings);
    forall segments | Pieces(args, segments) ensures segments == mappings {
      OnePieces(args, segments);
    }
  }

  lemma LastBindingUnique(segments: seq<string>, key: string, v: string, w: string)
    requires IsLastBinding(segments, key, v) && IsLastBinding(segments, key, w)
    ensures v == w
  {
  }

  // ----- text produced by joining key=value pairs -----

  datatype Pair = Pair(key: string, value: string)

  predicate Clean(p: Pair) {
    Free(p.key, ';') && Free(p.key, '=') && Free(p.value, ';') && Free(p.value, '=')
  }

  function Encode(p: Pair): string {
    p.key + "=" + p.value
  }

  function EncodeAll(ps: seq<Pair>): (r: seq<string>)
    ensures |r| == |ps| && forall i | 0 <= i < |ps| :: r[i] == Encode(ps[i])
  {
    seq(|ps|, i requires 0 <= i < |ps| => Encode(ps[i]))
  }

  /** The value the last pair with this key carries; empty without one. */
  function LastValue(ps: seq<Pair>, key: string): string {
    if ps == [] then ""
    else if ps[|ps| - 1].key == key then ps[|ps| - 1].value
    else LastValue(ps[..|ps| - 1], key)
  }

  lemma EncodedPair(p: Pair, key: string)
    requires Clean(p)
    ensures Split(Encode(p), '=') == [p.key, p.value]
    ensures Free(Encode(p), ';')
  {
    SplitHead(p.key, p.value, '=');
    SplitHead(p.value, "", '=');
  }

  lemma {:induction false} LastValueIsLastBinding(ps: seq<Pair>, key: string)
    requires forall i | 0 <= i < |ps| :: Clean(ps[i])
    ensures IsLastBinding(EncodeAll(ps), key, LastValue(ps, key))
  {
    if ps != [] {
      var n := |ps| - 1;
      LastValueIsLastBinding(ps[..n], key);
      EncodedPair(ps[n], key);
      assert EncodeAll(ps)[..n] == EncodeAll(ps[..n]);
      LastBindingStep(EncodeAll(ps), n, key, LastValue(ps[..n], key));
      assert EncodeAll(ps)[..n + 1] == EncodeAll(ps);
    }
  }

  /** On joined clean pairs the parse is the last binding of the list, for each of the two keys. */
  lemma ParseOfJoined(ps: seq<Pair>, podNs: string, podName: string)
    requires |ps| > 0 && forall i | 0 <= i < |ps| :: Clean(ps[i])
    ensures Pieces(Join(EncodeAll(ps), ';'), EncodeAll(ps))
    ensures IsLastBinding(EncodeAll(ps), "K8S_POD_NAMESPACE", podNs) <==> podNs == LastValue(ps, "K8S_POD_NAMESPACE")
    ensures IsLastBinding(EncodeAll(ps), "K8S_POD_NAME", podName) <==> podName == LastValue(ps, "K8S_POD_NAME")
  {
    forall i | 0 <= i < |ps| ensures Free(EncodeAll(ps)[i], ';') {
      EncodedPair(ps[i], "");
    }
    BoundOnce(ps, "K8S_POD_NAMESPACE", podNs);
    BoundOnce(ps, "K8S_POD_NAME", podName);
  }

  lemma BoundOnce(ps: seq<Pair>, key: string, v: string)
    requires forall i | 0 <= i < |ps| :: Clean(ps[i])
    ensures IsLastBinding(EncodeAll(ps), key, v) <==> v == LastValue(ps, key)
  {
    LastValueIsLastBinding(ps, key);
    if IsLastBinding(EncodeAll(ps), key, v) {
      LastBindingUnique(EncodeAll(ps), key, v, LastValue(ps, key));
    }
  }
}
