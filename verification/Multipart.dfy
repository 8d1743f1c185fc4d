/** Multipart uploads: initiate, upload parts in any order, complete or abort, with any number of
    uploads open at once. */
module Multipart {
  import opened Base
  import opened Decimal
  import opened Sealing

  const MAX_PART: int := 10000

  // uuid_unparse_lower writes 36 characters.
  type UploadId = s: string | |s| == 36 witness seq(36, i => '0')

  datatype Config = Config(root: string, etagOf: Bytes -> string, cipher: Cipher) {
    // multipart_path_/upload id/part-N
    function Dir(id: UploadId): string { root + "/" + id + "/" }

    function PartPath(id: UploadId, number: nat): string { Dir(id) + "part-" + ToDecimal(number) }

    predicate InDir(id: UploadId, path: string) { Dir(id) <= path }

    lemma PartPathInjective(a: UploadId, m: nat, b: UploadId, n: nat)
      ensures PartPath(a, m) == PartPath(b, n) ==> a == b && m == n
      ensures InDir(a, PartPath(b, n)) <==> a == b
    {
      var from := |root| + 1;
      assert Dir(a)[from..from + 36] == a && Dir(b)[from..from + 36] == b;
      assert PartPath(b, n)[..|Dir(b)|] == Dir(b) && PartPath(a, m)[..|Dir(a)|] == Dir(a);
      assert PartPath(a, m)[|Dir(a)| + 5..] == ToDecimal(m) && PartPath(b, n)[|Dir(b)| + 5..] == ToDecimal(n);
      DecimalRoundTrip(m);
      DecimalRoundTrip(n);
    }
  }

  // parts maps a part number to the ETag recorded for it.
  datatype Upload = Upload(key: ObjectKey, contentType: string, parts: map<int, string>)

  datatype State = State(
    uploads: map<UploadId, Upload>,
    files: map<string, Bytes>,
    objects: map<ObjectKey, Bytes>)

  const DEFAULT_TYPE: string := "application/octet-stream"

  function Initiated(s: State, id: UploadId, key: ObjectKey, contentType: string): State {
    var upload := Upload(key, if contentType == "" then DEFAULT_TYPE else contentType, map[]);
    s.(uploads := s.uploads[id := upload])
  }

  predicate IsOpen(s: State, id: UploadId, key: ObjectKey) {
    id in s.uploads && s.uploads[id].key == key
  }

  predicate Accepts(s: State, id: UploadId, key: ObjectKey, number: int, encryptOk: bool, fileOk: bool) {
    IsOpen(s, id, key) && 1 <= number <= MAX_PART && encryptOk && fileOk
  }

  // A part replaces any earlier upload of the same number.
  function PartUploaded(c: Config, s: State, id: UploadId, number: nat, data: Bytes, iv: Iv): State
    requires id in s.uploads
  {
    var upload := s.uploads[id];
    s.(files := s.files[c.PartPath(id, number) := c.cipher.Seal(iv, data)],
       uploads := s.uploads[id := upload.(parts := upload.parts[number := c.etagOf(data)])])
  }

  // remove_all of the upload's directory, and the upload forgotten.
  function Closed(c: Config, s: State, id: UploadId): State {
    s.(files := map p | p in s.files && !c.InDir(id, p) :: s.files[p],
       uploads := s.uploads - {id})
  }

  // The client's list: as many entries as parts, each naming a stored part with its ETag.
  predicate ListPasses(parts: map<int, string>, list: seq<(int, string)>) {
    |list| == |parts| && forall e | e in list :: e.0 in parts && parts[e.0] == e.1
  }

  // Parts from one number up to the first that is missing, decrypted and joined; None is a part file
  // that cannot be read.
  function Assembled(c: Config, s: State, id: UploadId, parts: map<int, string>, from: nat): Option<Bytes>
    decreases MAX_PART - from
  {
    if from > MAX_PART || from !in parts then Some([])
    else if c.PartPath(id, from) !in s.files then None
    else
      var part := c.cipher.Open(s.files[c.PartPath(id, from)]);
      if part.None? then None
      else
        var rest := Assembled(c, s, id, parts, from + 1);
        if rest.None? then None else Some(part.value + rest.value)
  }

  // CompleteMultipartUpload. Once the parts are assembled the upload is closed, whether or not the
  // final put succeeds.
  function Completed(c: Config, s: State, id: UploadId, key: ObjectKey, list: seq<(int, string)>, putOk: bool)
    : (State, bool)
  {
    if !IsOpen(s, id, key) || !ListPasses(s.uploads[id].parts, list) then (s, false)
    else
      var full := Assembled(c, s, id, s.uploads[id].parts, 1);
      if full.None? then (s, false)
      else
        var t := Closed(c, s, id);
        (if putOk then t.(objects := s.objects[key := full.value]) else t, putOk)
  }

  // ---- Runs ----

  datatype Op =
    | Initiate(id: UploadId, key: ObjectKey, contentType: string)
    | UploadPart(id: UploadId, key: ObjectKey, number: int, data: Bytes, iv: Iv, encryptOk: bool, fileOk: bool)
    | Complete(id: UploadId, key: ObjectKey, list: seq<(int, string)>, putOk: bool)
    | Abort(id: UploadId)

  // A fresh upload id is not in use.
  function Apply(c: Config, s: State, op: Op): State {
    match op
    case Initiate(id, key, contentType) => if id in s.uploads then s else Initiated(s, id, key, contentType)
    case UploadPart(id, key, number, data, iv, encryptOk, fileOk) =>
      if Accepts(s, id, key, number, encryptOk, fileOk) then PartUploaded(c, s, id, number, data, iv) else s
    case Complete(id, key, list, putOk) => Completed(c, s, id, key, list, putOk).0
    case Abort(id) => if id in s.uploads then Closed(c, s, id) else s
  }

  function ApplyAll(c: Config, s: State, ops: seq<Op>): State
    decreases |ops|
  {
    if ops == [] then s else ApplyAll(c, Apply(c, s, ops[0]), ops[1..])
  }

  // ---- What the list of operations alone says ----

  // An upload as its operations show it: the key and type given at its start, and the bytes last
  // accepted for each part number.
  datatype Sending = Sending(key: ObjectKey, contentType: string, parts: map<int, Bytes>)

  datatype Ledger = Ledger(open: map<UploadId, Sending>, objects: map<ObjectKey, Bytes>)

  const BLANK: Ledger := Ledger(map[], map[])

  function ETags(c: Config, parts: map<int, Bytes>): map<int, string> {
    map n | n in parts :: c.etagOf(parts[n])
  }

  // The completion finds its upload, and its list names as many parts as were sent, each with the
  // ETag of the bytes last accepted for it.
  predicate Closes(c: Config, l: Ledger, id: UploadId, key: ObjectKey, list: seq<(int, string)>) {
    id in l.open && l.open[id].key == key && ListPasses(ETags(c, l.open[id].parts), list)
  }

  function Noted(c: Config, l: Ledger, op: Op): Ledger {
    match op
    case Initiate(id, key, contentType) =>
      if id in l.open then l
      else
        var given := if contentType == "" then "application/octet-stream" else contentType;
        l.(open := l.open[id := Sending(key, given, map[])])
    case UploadPart(id, key, number, data, _, encryptOk, fileOk) =>
      if id in l.open && l.open[id].key == key && 1 <= number <= 10000 && encryptOk && fileOk
      then l.(open := l.open[id := l.open[id].(parts := l.open[id].parts[number := data])])
      else l
    case Complete(id, key, list, putOk) =>
      if !Closes(c, l, id, key, list) then l
      else Ledger(l.open - {id}, if putOk then l.objects[key := LeadingParts(l.open[id].parts, 1)] else l.objects)
    case Abort(id) => l.(open := l.open - {id})
  }

  function NotedAll(c: Config, l: Ledger, ops: seq<Op>): Ledger
    decreases |ops|
  {
    if ops == [] then l else NotedAll(c, Noted(c, l, ops[0]), ops[1..])
  }

  // The upload has exactly the ledger's parts, with their ETags and a file that opens to each.
  ghost predicate UploadMatches(c: Config, s: State, id: UploadId, p: Sending)
    requires id in s.uploads
  {
    && s.uploads[id].key == p.key && s.uploads[id].contentType == p.contentType
    && s.uploads[id].parts.Keys == p.parts.Keys
    && forall n {:trigger n in p.parts} :: n in p.parts ==>
         && 1 <= n <= MAX_PART
         && s.uploads[id].parts[n] == c.etagOf(p.parts[n])
         && c.PartPath(id, n) in s.files
         && c.cipher.Open(s.files[c.PartPath(id, n)]) == Some(p.parts[n])
  }

  ghost predicate Matches(c: Config, s: State, l: Ledger) {
    && s.objects == l.objects && s.uploads.Keys == l.open.Keys
    && forall id: UploadId :: id in s.uploads ==> UploadMatches(c, s, id, l.open[id])
  }

  lemma InitiateMatches(c: Config, s: State, l: Ledger, id: UploadId, key: ObjectKey, contentType: string)
    requires Matches(c, s, l)
    ensures Matches(c, Apply(c, s, Initiate(id, key, contentType)), Noted(c, l, Initiate(id, key, contentType)))
  {
    var t, m := Apply(c, s, Initiate(id, key, contentType)), Noted(c, l, Initiate(id, key, contentType));
    forall other: UploadId | other in t.uploads
      ensures UploadMatches(c, t, other, m.open[other])
    {
      assert other in s.uploads ==> UploadMatches(c, s, other, l.open[other]);
    }
  }

  lemma PartMatches(c: Config, s: State, l: Ledger, id: UploadId, number: nat, data: Bytes, iv: Iv)
    requires c.cipher.Valid() && Matches(c, s, l) && id in s.uploads && 1 <= number <= MAX_PART
    ensures var p := l.open[id];
            Matches(c, PartUploaded(c, s, id, number, data, iv), l.(open := l.open[id := p.(parts := p.parts[number := data])]))
  {
    var t := PartUploaded(c, s, id, number, data, iv);
    var m := l.(open := l.open[id := l.open[id].(parts := l.open[id].parts[number := data])]);
    c.cipher.OpenSeal(iv, data);
    forall other: UploadId | other in t.uploads
      ensures UploadMatches(c, t, other, m.open[other])
    {
      assert UploadMatches(c, s, other, l.open[other]);
      forall n | n in t.uploads[other].parts && (other != id || n != number)
        ensures c.PartPath(other, n) != c.PartPath(id, number)
      {
        c.PartPathInjective(other, n, id, number);
      }
    }
  }

  lemma CloseMatches(c: Config, s: State, l: Ledger, id: UploadId)
    requires Matches(c, s, l)
    ensures Matches(c, Closed(c, s, id), l.(open := l.open - {id}))
  {
    var t := Closed(c, s, id);
    forall other: UploadId | other in t.uploads
      ensures UploadMatches(c, t, other, l.open[other])
    {
      assert UploadMatches(c, s, other, l.open[other]);
      forall n | n in s.uploads[other].parts
        ensures !c.InDir(id, c.PartPath(other, n))
      {
        c.PartPathInjective(id, 0, other, n);
      }
    }
  }

  // ---- No file outlives its upload ----

  ghost predicate IsPartFile(c: Config, s: State, path: string) {
    exists id: UploadId, n: nat {:trigger c.PartPath(id, n)} ::
      id in s.uploads && n in s.uploads[id].parts && path == c.PartPath(id, n)
  }

  ghost predicate OnlyPartFiles(c: Config, s: State) {
    forall path :: path in s.files ==> IsPartFile(c, s, path)
  }

  lemma StaysPartFile(c: Config, s: State, t: State, path: string)
    requires IsPartFile(c, s, path)
    requires forall id: UploadId, n: nat :: id in s.uploads && n in s.uploads[id].parts && path == c.PartPath(id, n)
               ==> id in t.uploads && n in t.uploads[id].parts
    ensures IsPartFile(c, t, path)
  {
    var id: UploadId, n: nat :| id in s.uploads && n in s.uploads[id].parts && path == c.PartPath(id, n);
    assert path == c.PartPath(id, n);
  }

  lemma CloseLeavesPartFiles(c: Config, s: State, id: UploadId)
    requires OnlyPartFiles(c, s)
    ensures OnlyPartFiles(c, Closed(c, s, id))
  {
    var t := Closed(c, s, id);
    forall path | path in t.files
      ensures IsPartFile(c, t, path)
    {
      assert IsPartFile(c, s, path);
      forall u: UploadId, n: nat | u in s.uploads && path == c.PartPath(u, n)
        ensures u != id
      {
        c.PartPathInjective(id, 0, u, n);
      }
      StaysPartFile(c, s, t, path);
    }
  }

  lemma StepLeavesPartFiles(c: Config, s: State, op: Op)
    requires OnlyPartFiles(c, s)
    ensures OnlyPartFiles(c, Apply(c, s, op))
  {
    var t := Apply(c, s, op);
    if op.Complete? || op.Abort? {
      CloseLeavesPartFiles(c, s, op.id);
    } else {
      forall path | path in t.files
        ensures IsPartFile(c, t, path)
      {
        if path in s.files {
          assert IsPartFile(c, s, path);
          StaysPartFile(c, s, t, path);
        } else {
          assert path == c.PartPath(op.id, op.number) && op.number in t.uploads[op.id].parts;
        }
      }
    }
  }

  // Over every run the only files are those of the parts of open uploads.
  lemma {:induction false} RunLeavesPartFiles(c: Config, s: State, ops: seq<Op>)
    requires OnlyPartFiles(c, s)
    ensures OnlyPartFiles(c, ApplyAll(c, s, ops))
    decreases |ops|
  {
    if ops != [] {
      StepLeavesPartFiles(c, s, ops[0]);
      RunLeavesPartFiles(c, Apply(c, s, ops[0]), ops[1..]);
    }
  }

  // ---- The run ----

  // The table's ETags are those of the ledger's parts, so the client's list passes against both or
  // neither, and assembling gives the leading parts.
  lemma OpenMatches(c: Config, s: State, l: Ledger, id: UploadId)
    requires Matches(c, s, l) && id in s.uploads
    ensures s.uploads[id].parts == ETags(c, l.open[id].parts) && s.uploads[id].key == l.open[id].key
    ensures Assembled(c, s, id, s.uploads[id].parts, 1) == Some(LeadingParts(l.open[id].parts, 1))
  {
    assert UploadMatches(c, s, id, l.open[id]);
    forall n | n in l.open[id].parts
      ensures s.uploads[id].parts[n] == ETags(c, l.open[id].parts)[n]
    {
    }
    assert s.uploads[id].parts == ETags(c, l.open[id].parts);
    AssembledLeading(c, s, id, l.open[id], 1);
  }

  lemma CompleteMatches(c: Config, s: State, l: Ledger, id: UploadId, key: ObjectKey, list: seq<(int, string)>, putOk: bool)
    requires Matches(c, s, l)
    ensures var (t, ok) := Completed(c, s, id, key, list, putOk);
            Matches(c, t, Noted(c, l, Complete(id, key, list, putOk))) && (ok <==> Closes(c, l, id, key, list) && putOk)
  {
    if id in s.uploads {
      OpenMatches(c, s, l, id);
      if Closes(c, l, id, key, list) {
        CloseMatches(c, s, l, id);
        var closed := Closed(c, s, id);
        assert Completed(c, s, id, key, list, putOk).0 ==
          if putOk then closed.(objects := s.objects[key := LeadingParts(l.open[id].parts, 1)]) else closed;
        ObjectsApart(c, closed, l.(open := l.open - {id}), Noted(c, l, Complete(id, key, list, putOk)).objects);
      }
    }
  }

  lemma ObjectsApart(c: Config, s: State, l: Ledger, objects: map<ObjectKey, Bytes>)
    requires Matches(c, s, l)
    ensures Matches(c, s.(objects := objects), l.(objects := objects))
  {
    var t := s.(objects := objects);
    forall id: UploadId | id in t.uploads
      ensures UploadMatches(c, t, id, l.open[id])
    {
      assert UploadMatches(c, s, id, l.open[id]);
    }
  }

  // Over every run, with any interleaving of uploads, re-uploads, failures, completions and aborts,
  // the state is what the list of operations says.
  lemma {:induction false} RunMatches(c: Config, s: State, l: Ledger, ops: seq<Op>)
    requires c.cipher.Valid() && Matches(c, s, l)
    ensures Matches(c, ApplyAll(c, s, ops), NotedAll(c, l, ops))
    decreases |ops|
  {
    if ops != [] {
      match ops[0] {
        case Initiate(id, key, contentType) => InitiateMatches(c, s, l, id, key, contentType);
        case UploadPart(id, key, number, data, iv, encryptOk, fileOk) =>
          if id in s.uploads {
            assert UploadMatches(c, s, id, l.open[id]);
            if 1 <= number <= MAX_PART {
              PartMatches(c, s, l, id, number, data, iv);
            }
          }
        case Complete(id, key, list, putOk) => CompleteMatches(c, s, l, id, key, list, putOk);
        case Abort(id) =>
          if id in s.uploads {
            CloseMatches(c, s, l, id);
          } else {
            assert l.open - {id} == l.open;
          }
      }
      RunMatches(c, Apply(c, s, ops[0]), Noted(c, l, ops[0]), ops[1..]);
    }
  }

  // ---- What completion stores ----

  // All parts in numeric order, gaps skipped.
  function AllParts(parts: map<int, Bytes>, from: nat): Bytes
    decreases MAX_PART - from
  {
    if from > MAX_PART then []
    else (if from in parts then parts[from] else []) + AllParts(parts, from + 1)
  }

  // The parts up to the first gap.
  function LeadingParts(parts: map<int, Bytes>, from: nat): Bytes
    decreases MAX_PART - from
  {
    if from > MAX_PART || from !in parts then []
    else parts[from] + LeadingParts(parts, from + 1)
  }

  function FirstGap(parts: map<int, Bytes>, from: nat): (gap: nat)
    ensures gap >= from
    ensures forall n :: from <= n < gap ==> n in parts
    ensures gap <= MAX_PART ==> gap !in parts
    decreases MAX_PART - from
  {
    if from > MAX_PART || from !in parts then from else FirstGap(parts, from + 1)
  }

  lemma {:induction false} AssembledLeading(c: Config, s: State, id: UploadId, p: Sending, from: nat)
    requires id in s.uploads && UploadMatches(c, s, id, p)
    ensures Assembled(c, s, id, s.uploads[id].parts, from) == Some(LeadingParts(p.parts, from))
    decreases MAX_PART - from
  {
    if from <= MAX_PART && from in s.uploads[id].parts {
      AssembledLeading(c, s, id, p, from + 1);
    }
  }

  // A part file that is missing or does not open, before the first gap, fails the completion and leaves
  // everything as it was.
  lemma UnreadablePartFails(c: Config, s: State, id: UploadId, key: ObjectKey, list: seq<(int, string)>, putOk: bool, n: nat)
    requires IsOpen(s, id, key) && 1 <= n <= MAX_PART && (forall m :: 1 <= m <= n ==> m in s.uploads[id].parts)
    requires c.PartPath(id, n) in s.files ==> c.cipher.Open(s.files[c.PartPath(id, n)]).None?
    ensures Completed(c, s, id, key, list, putOk) == (s, false)
  {
    UnreadableFrom(c, s, id, s.uploads[id].parts, 1, n);
  }

  lemma {:induction false} UnreadableFrom(c: Config, s: State, id: UploadId, parts: map<int, string>, from: nat, n: nat)
    requires from <= n <= MAX_PART && forall m :: from <= m <= n ==> m in parts
    requires c.PartPath(id, n) in s.files ==> c.cipher.Open(s.files[c.PartPath(id, n)]).None?
    ensures Assembled(c, s, id, parts, from).None?
    decreases n - from
  {
    if from < n {
      UnreadableFrom(c, s, id, parts, from + 1, n);
    }
  }

  lemma {:induction false} EmptyTail(parts: map<int, Bytes>, from: nat)
    ensures AllParts(parts, from) == [] <==>
            forall n :: from <= n <= MAX_PART && n in parts ==> parts[n] == []
    decreases MAX_PART - from
  {
    if from <= MAX_PART {
      EmptyTail(parts, from + 1);
      var first := if from in parts then parts[from] else [];
      assert AllParts(parts, from) == [] <==> first == [] && AllParts(parts, from + 1) == [];
    }
  }

  lemma {:induction false} LeadingThenRest(parts: map<int, Bytes>, from: nat)
    ensures AllParts(parts, from) == LeadingParts(parts, from) + AllParts(parts, FirstGap(parts, from))
    decreases MAX_PART - from
  {
    if from <= MAX_PART && from in parts {
      LeadingThenRest(parts, from + 1);
    }
  }

  // Completion keeps everything if and only if no part numbered past the first gap has any bytes.
  lemma LeadingIsAllIff(parts: map<int, Bytes>)
    ensures LeadingParts(parts, 1) == AllParts(parts, 1) <==>
            forall n :: FirstGap(parts, 1) <= n <= MAX_PART && n in parts ==> parts[n] == []
  {
    LeadingThenRest(parts, 1);
    EmptyTail(parts, FirstGap(parts, 1));
  }

  // The part numbers are exactly 1..n.
  ghost predicate NumberedTo(parts: map<int, Bytes>, n: nat) {
    n <= MAX_PART && forall i :: i in parts <==> 1 <= i <= n
  }

  lemma {:induction false} NumberedFromOne(parts: map<int, Bytes>, n: nat, from: nat)
    requires 1 <= from <= n + 1 && NumberedTo(parts, n)
    ensures FirstGap(parts, from) == n + 1
    decreases n - from
  {
    if from <= n {
      NumberedFromOne(parts, n, from + 1);
    }
  }

  // After any run, a completion whose list passes closes the upload, even when its final put fails.
  // One that returns true stores exactly the leading parts, as last accepted, in numeric order; with
  // the numbers 1..n that is every part. Any other leaves everything as it was.
  lemma CompletionStores(c: Config, start: State, known: Ledger, ops: seq<Op>, id: UploadId, key: ObjectKey,
                         list: seq<(int, string)>, putOk: bool)
    requires c.cipher.Valid() && Matches(c, start, known)
    ensures var s, l := ApplyAll(c, start, ops), NotedAll(c, known, ops);
            var (t, ok) := Completed(c, s, id, key, list, putOk);
            && (ok <==> Closes(c, l, id, key, list) && putOk)
            && (!Closes(c, l, id, key, list) ==> t == s)
            && (Closes(c, l, id, key, list) ==>
                 && t.uploads == s.uploads - {id}
                 && (forall p :: p in t.files <==> p in s.files && !c.InDir(id, p))
                 && t.objects == if putOk then s.objects[key := LeadingParts(l.open[id].parts, 1)] else s.objects)
            && (ok ==> forall n: nat :: NumberedTo(l.open[id].parts, n) ==> t.objects[key] == AllParts(l.open[id].parts, 1))
  {
    RunMatches(c, start, known, ops);
    var s, l := ApplyAll(c, start, ops), NotedAll(c, known, ops);
    if id in s.uploads {
      OpenMatches(c, s, l, id);
      LeadingIsAllIff(l.open[id].parts);
      forall n: nat | NumberedTo(l.open[id].parts, n)
        ensures LeadingParts(l.open[id].parts, 1) == AllParts(l.open[id].parts, 1)
      {
        NumberedFromOne(l.open[id].parts, n, 1);
      }
    }
  }

  // ---- The check of the client's list ----

  function Numbers(list: seq<(int, string)>): seq<int> {
    seq(|list|, i requires 0 <= i < |list| => list[i].0)
  }

  // A list that passes is the whole part table if and only if it repeats no part number.
  lemma PassingListIsTableIff(parts: map<int, string>, list: seq<(int, string)>)
    requires ListPasses(parts, list)
    ensures Distinct(Numbers(list)) <==> SetOf(list) == parts.Items
  {
    var numbers := Numbers(list);
    DistinctIffSize(numbers);
    forall i | 0 <= i < |list|
      ensures list[i] in parts.Items && numbers[i] in parts
    {
      assert list[i] in list;
    }
    assert SetOf(numbers) <= parts.Keys;
    if Distinct(numbers) {
      SubsetSize(SetOf(numbers), parts.Keys);
      forall e | e in parts.Items
        ensures e in SetOf(list)
      {
        assert e.0 in SetOf(numbers);
        var i :| 0 <= i < |numbers| && numbers[i] == e.0;
        assert list[i] in list && list[i].1 == parts[e.0];
      }
    }
    if SetOf(list) == parts.Items {
      forall n | n in parts
        ensures n in SetOf(numbers)
      {
        assert (n, parts[n]) in parts.Items;
        var i :| 0 <= i < |list| && list[i] == (n, parts[n]);
        assert numbers[i] == n;
      }
      assert SetOf(numbers) == parts.Keys;
    }
  }

  // A subset with as many elements is the whole set.
  lemma {:induction false} SubsetSize<T>(a: set<T>, b: set<T>)
    requires a <= b
    ensures |a| <= |b| && (|a| == |b| <==> a == b)
  {
    assert b == a + (b - a);
    assert |b| == |a| + |b - a|;
  }

  // ---- The store object ----

  function Prefixed(front: Bytes, rest: Option<Bytes>): (r: Option<Bytes>)
    ensures front == [] ==> r == rest
  {
    if rest.None? then None
    else
      assert front == [] ==> front + rest.value == rest.value;
      Some(front + rest.value)
  }

  lemma PrefixedTwice(a: Bytes, b: Bytes, rest: Option<Bytes>)
    ensures Prefixed(a, Prefixed(b, rest)) == Prefixed(a + b, rest)
  {
    if rest.Some? {
      assert a + (b + rest.value) == (a + b) + rest.value;
    }
  }

  class MultipartStore {
    const config: Config
    var activeUploads: map<UploadId, Upload>
    var files: map<string, Bytes>
    var objects: map<ObjectKey, Bytes>

    ghost function Snapshot(): State
      reads this
    {
      State(activeUploads, files, objects)
    }

    constructor (config: Config)
      ensures this.config == config && Snapshot() == State(map[], map[], map[]) && Matches(config, Snapshot(), BLANK)
    {
      this.config := config;
      activeUploads, files, objects := map[], map[], map[];
    }

    method InitiateMultipartUpload(id: UploadId, key: ObjectKey, contentType: string)
      modifies this
      ensures Snapshot() == Initiated(old(Snapshot()), id, key, contentType)
    {
      var upload := Upload(key, if contentType == "" then DEFAULT_TYPE else contentType, map[]);
      activeUploads := activeUploads[id := upload];
    }

    method UploadPart(id: UploadId, key: ObjectKey, number: int, data: Bytes, iv: Iv, encryptOk: bool, fileOk: bool)
      returns (ok: bool)
      modifies this
      ensures ok == old(Accepts(Snapshot(), id, key, number, encryptOk, fileOk))
      ensures Snapshot() == if ok then PartUploaded(config, old(Snapshot()), id, number, data, iv) else old(Snapshot())
    {
      if id !in activeUploads || activeUploads[id].key != key {
        return false;
      }
      if number < 1 || number > MAX_PART {
        return false;
      }
      if !encryptOk || !fileOk {
        return false;
      }
      files := files[config.PartPath(id, number) := config.cipher.Seal(iv, data)];
      var upload := activeUploads[id];
      activeUploads := activeUploads[id := upload.(parts := upload.parts[number := config.etagOf(data)])];
      return true;
    }

    method CompleteMultipartUpload(id: UploadId, key: ObjectKey, list: seq<(int, string)>, putOk: bool) returns (ok: bool)
      modifies this
      ensures (Snapshot(), ok) == Completed(config, old(Snapshot()), id, key, list, putOk)
    {
      if id !in activeUploads || activeUploads[id].key != key {
        return false;
      }
      var parts := activeUploads[id].parts;
      if |list| != |parts| {
        return false;
      }
      for k := 0 to |list|
        invariant forall m :: 0 <= m < k ==> list[m].0 in parts && parts[list[m].0] == list[m].1
      {
        if list[k].0 !in parts || parts[list[k].0] != list[k].1 {
          assert list[k] in list;
          return false;
        }
      }
      var full := AssembleParts(id);
      if full.None? {
        return false;
      }
      Close(id);
      if putOk {
        objects := objects[key := full.value];
      }
      return putOk;
    }

    // Decrypts part 1, 2, ... up to the first missing number and joins the plaintexts.
    method AssembleParts(id: UploadId) returns (full: Option<Bytes>)
      requires id in activeUploads
      ensures full == Assembled(config, Snapshot(), id, activeUploads[id].parts, 1)
    {
      var parts := activeUploads[id].parts;
      var joined: Bytes := [];
      var i: nat := 1;
      while i <= MAX_PART && i in parts
        invariant 1 <= i <= MAX_PART + 1
        invariant Assembled(config, Snapshot(), id, parts, 1) ==
                  Prefixed(joined, Assembled(config, Snapshot(), id, parts, i))
      {
        var path := config.PartPath(id, i);
        if path !in files {
          return None;
        }
        var part := config.cipher.Open(files[path]);
        if part.None? {
          return None;
        }
        PrefixedTwice(joined, part.value, Assembled(config, Snapshot(), id, parts, i + 1));
        joined := joined + part.value;
        i := i + 1;
      }
      assert joined + [] == joined;
      return Some(joined);
    }

    method AbortMultipartUpload(id: UploadId) returns (ok: bool)
      modifies this
      ensures ok == (id in old(activeUploads))
      ensures Snapshot() == if ok then Closed(config, old(Snapshot()), id) else old(Snapshot())
    {
      if id !in activeUploads {
        return false;
      }
      Close(id);
      return true;
    }

    // The cleanup both ends share: directory, metadata file and table entry.
    method Close(id: UploadId)
      modifies this
      ensures Snapshot() == Closed(config, old(Snapshot()), id)
    {
      files := map p | p in files && !config.InDir(id, p) :: files[p];
      activeUploads := activeUploads - {id};
    }
  }
}
