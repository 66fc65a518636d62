/** The encrypted Hat store: chunked encryption, reading, and the rename with its rollback. */
module HatSecrets {
  import opened Text

  // ---------------------------------------------------------------- chunked encryption

  type Bytes = seq<bv8>

  const CHUNK_BYTES := 160

  /** The most that OAEP with SHA-256 takes under the smallest supported key, 2048 bits. */
  const OAEP_LIMIT := 190

  /** RSA is taken as an exact inverse: a chunk opens under the private key of the pair that sealed it. */
  datatype Sealed = Sealed(pair: nat, chunk: Bytes)

  function Open(privateKey: nat, s: Sealed): Option<Bytes> {
    if s.pair == privateKey then Some(s.chunk) else None
  }

  /** The plaintext in pieces of CHUNK_BYTES, and one empty piece for an empty plaintext. */
  function Chunks(plaintext: Bytes): seq<Bytes> {
    if |plaintext| <= CHUNK_BYTES then [plaintext]
    else [plaintext[..CHUNK_BYTES]] + Chunks(plaintext[CHUNK_BYTES..])
  }

  function SealAll(publicKey: nat, chunks: seq<Bytes>): (r: seq<Sealed>)
    ensures |r| == |chunks|
  {
    seq(|chunks|, i requires 0 <= i < |chunks| => Sealed(publicKey, chunks[i]))
  }

  function OpenAll(privateKey: nat, sealed: seq<Sealed>): Option<Bytes> {
    if sealed == [] then Some([])
    else
      var n := |sealed| - 1;
      match OpenAll(privateKey, sealed[..n])
      case None => None
      case Some(init) =>
        match Open(privateKey, sealed[n])
        case None => None
        case Some(last) => Some(init + last)
  }

  /** An empty list of chunks is refused. */
  function Decrypted(privateKey: nat, sealed: seq<Sealed>): Option<Bytes> {
    if sealed == [] then None else OpenAll(privateKey, sealed)
  }

  lemma {:induction false} ChunksShape(plaintext: Bytes)
    ensures |Chunks(plaintext)| > 0
    ensures forall c | c in Chunks(plaintext) :: |c| <= CHUNK_BYTES
  {
    if |plaintext| > CHUNK_BYTES {
      ChunksShape(plaintext[CHUNK_BYTES..]);
    }
  }

  /** The comprehension over range(0, len, CHUNK_BYTES). */
  method SplitIntoChunks(plaintext: Bytes) returns (chunks: seq<Bytes>)
    ensures chunks == Chunks(plaintext)
  {
    chunks := [];
    var index := 0;
    while index < |plaintext|
      invariant 0 <= index
      invariant if index < |plaintext| then chunks + Chunks(plaintext[index..]) == Chunks(plaintext)
                else if plaintext == [] then chunks == [] else chunks == Chunks(plaintext)
    {
      if index + CHUNK_BYTES < |plaintext| {
        FullChunk(plaintext, index, chunks);
      } else {
        assert Chunks(plaintext[index..]) == [plaintext[index..]];
      }
      var end := if index + CHUNK_BYTES <= |plaintext| then index + CHUNK_BYTES else |plaintext|;
      assert end == |plaintext| ==> plaintext[index..end] == plaintext[index..];
      chunks := chunks + [plaintext[index..end]];
      index := index + CHUNK_BYTES;
    }
    if chunks == [] {
      ChunksShape(plaintext);
      chunks := [[]];
    }
  }

  lemma FullChunk(plaintext: Bytes, index: nat, chunks: seq<Bytes>)
    requires index + CHUNK_BYTES < |plaintext|
    ensures chunks + [plaintext[index..index + CHUNK_BYTES]] + Chunks(plaintext[index + CHUNK_BYTES..])
            == chunks + Chunks(plaintext[index..])
  {
    var rest := plaintext[index..];
    var head, tail := plaintext[index..index + CHUNK_BYTES], plaintext[index + CHUNK_BYTES..];
    assert rest[..CHUNK_BYTES] == head && rest[CHUNK_BYTES..] == tail;
    assert Chunks(rest) == [head] + Chunks(tail);
    Regroup(chunks, head, Chunks(tail));
  }

  lemma Regroup<T>(a: seq<T>, x: T, b: seq<T>)
    ensures a + [x] + b == a + ([x] + b)
  {
  }

  /** One call of the cipher for each piece, none of them too long for it. */
  method EncryptBytes(publicKey: nat, plaintext: Bytes) returns (sealed: seq<Sealed>)
    ensures sealed == SealAll(publicKey, Chunks(plaintext))
    ensures sealed != [] && forall s | s in sealed :: |s.chunk| <= CHUNK_BYTES <= OAEP_LIMIT
  {
    var chunks := SplitIntoChunks(plaintext);
    ChunksShape(plaintext);
    sealed := [];
    for k := 0 to |chunks|
      invariant |sealed| == k && forall i | 0 <= i < k :: sealed[i] == Sealed(publicKey, chunks[i])
    {
      sealed := sealed + [Sealed(publicKey, chunks[k])];
    }
  }

  method DecryptBytes(privateKey: nat, sealed: seq<Sealed>) returns (r: Option<Bytes>)
    ensures r == Decrypted(privateKey, sealed)
  {
    if sealed == [] {
      return None;
    }
    var plaintext: Bytes := [];
    for k := 0 to |sealed|
      invariant OpenAll(privateKey, sealed[..k]) == Some(plaintext)
    {
      assert sealed[..k + 1][..k] == sealed[..k];
      var chunk := Open(privateKey, sealed[k]);
      if chunk.None? {
        OpenAllStuck(privateKey, sealed, k);
        return None;
      }
      plaintext := plaintext + chunk.value;
    }
    assert sealed[..|sealed|] == sealed;
    return Some(plaintext);
  }

  lemma {:induction false} OpenAllStuck(privateKey: nat, sealed: seq<Sealed>, k: nat)
    requires k < |sealed| && Open(privateKey, sealed[k]).None?
    ensures OpenAll(privateKey, sealed).None?
  {
    if k < |sealed| - 1 {
      OpenAllStuck(privateKey, sealed[..|sealed| - 1], k);
    }
  }

  lemma {:induction false} OpenAllConcat(privateKey: nat, a: seq<Sealed>, b: seq<Sealed>)
    requires OpenAll(privateKey, a).Some? && OpenAll(privateKey, b).Some?
    ensures OpenAll(privateKey, a + b) == Some(OpenAll(privateKey, a).value + OpenAll(privateKey, b).value)
  {
    if b == [] {
      assert a + b == a;
      assert OpenAll(privateKey, a).value + [] == OpenAll(privateKey, a).value;
    } else {
      var n := |b| - 1;
      OpenAllConcat(privateKey, a, b[..n]);
      assert (a + b)[..|a + b| - 1] == a + b[..n] && (a + b)[|a + b| - 1] == b[n];
      var left, init := OpenAll(privateKey, a).value, OpenAll(privateKey, b[..n]).value;
      var last := Open(privateKey, b[n]).value;
      assert (left + init) + last == left + (init + last);
    }
  }

  /** Decrypting an encryption gives the plaintext back, whatever its length, exactly when the two
      keys belong to one pair. */
  lemma {:induction false} EncryptThenDecrypt(publicKey: nat, privateKey: nat, plaintext: Bytes)
    ensures Decrypted(privateKey, SealAll(publicKey, Chunks(plaintext)))
            == if publicKey == privateKey then Some(plaintext) else None
    decreases |plaintext|
  {
    var chunks := Chunks(plaintext);
    var sealed := SealAll(publicKey, chunks);
    ChunksShape(plaintext);
    if publicKey != privateKey {
      OpenAllStuck(privateKey, sealed, 0);
    } else if |plaintext| <= CHUNK_BYTES {
      assert sealed == [Sealed(publicKey, plaintext)];
      OpenOne(publicKey, plaintext);
    } else {
      var head, rest := plaintext[..CHUNK_BYTES], plaintext[CHUNK_BYTES..];
      EncryptThenDecrypt(publicKey, privateKey, rest);
      ChunksShape(rest);
      var first, others := [Sealed(publicKey, head)], SealAll(publicKey, Chunks(rest));
      OpenOne(publicKey, head);
      assert sealed == first + others;
      OpenAllConcat(privateKey, first, others);
      assert head + rest == plaintext;
    }
  }

  lemma OpenOne(key: nat, chunk: Bytes)
    ensures OpenAll(key, [Sealed(key, chunk)]) == Some(chunk)
  {
    var one := [Sealed(key, chunk)];
    assert one[..0] == [] && OpenAll(key, one[..0]) == Some([]);
    assert [] + chunk == chunk;
  }

  // ---------------------------------------------------------------- one store

  type Values = map<string, string>

  /** The bundle text format and the name normaliser, with the laws the store rests on. */
  datatype Format = Format(encode: Values -> Bytes, decode: Bytes -> Option<seq<(string, string)>>,
                           normalize: string -> Option<string>)

  function AsMap(pairs: seq<(string, string)>): Values {
    if pairs == [] then map[]
    else AsMap(pairs[..|pairs| - 1])[pairs[|pairs| - 1].0 := pairs[|pairs| - 1].1]
  }

  ghost predicate Lawful(f: Format) {
    && (forall v :: f.decode(f.encode(v)).Some? && AsMap(f.decode(f.encode(v)).value) == v)
    && (forall n: string :: f.normalize(n).Some? ==> f.normalize(f.normalize(n).value) == f.normalize(n))
  }

  /** secrets.json: the plaintext format of old, the encrypted one, or something unreadable. */
  datatype StoreFile =
    | Legacy(handle: string, secrets: seq<(string, string)>)
    | Encrypted(handle: string, names: multiset<string>, sealed: seq<Sealed>)
    | Corrupt

  /** A Hat's directory: its store and its two key files; a key is named by its pair. */
  datatype Directory = Directory(store: Option<StoreFile>, privateKey: Option<nat>, publicKey: Option<nat>)

  function ReadStore(d: Directory, handle: string): Option<StoreFile> {
    match d.store
    case None => Some(Legacy(handle, []))
    case Some(file) => if file.Corrupt? || file.handle != handle then None else Some(file)
  }

  /** The dict comprehension that normalises every name; later entries win. */
  function NormalizeAll(f: Format, pairs: seq<(string, string)>): Option<Values> {
    if pairs == [] then Some(map[])
    else
      var last := pairs[|pairs| - 1];
      match NormalizeAll(f, pairs[..|pairs| - 1])
      case None => None
      case Some(init) =>
        match f.normalize(last.0)
        case None => None
        case Some(name) => Some(init[name := last.1])
  }

  function StoreValues(f: Format, d: Directory, file: StoreFile): Option<Values> {
    match file
    case Corrupt => None
    case Legacy(_, secrets) => NormalizeAll(f, secrets)
    case Encrypted(_, names, sealed) =>
      if d.privateKey.None? then None
      else
        match Decrypted(d.privateKey.value, sealed)
        case None => None
        case Some(plaintext) =>
          match f.decode(plaintext)
          case None => None
          case Some(pairs) =>
            match NormalizeAll(f, pairs)
            case None => None
            case Some(values) => if multiset(values.Keys) == names then Some(values) else None
  }

  /** The name-to-value map that the store gives under a handle. */
  function Readable(f: Format, d: Directory, handle: string): Option<Values> {
    match ReadStore(d, handle)
    case None => None
    case Some(file) => StoreValues(f, d, file)
  }

  /** What can be read of an encrypted store has exactly the names that it records in clear, for the very handle
      that it was written for. */
  lemma ReadableMeans(f: Format, d: Directory, handle: string)
    requires d.store.Some? && d.store.value.Encrypted? && Readable(f, d, handle).Some?
    ensures d.store.value.handle == handle
    ensures multiset(Readable(f, d, handle).value.Keys) == d.store.value.names
  {
  }

  ghost predicate NormalNames(f: Format, v: Values) {
    forall n | n in v :: f.normalize(n) == Some(n)
  }

  lemma {:induction false} NormalizeAllNormal(f: Format, pairs: seq<(string, string)>)
    requires Lawful(f) && NormalizeAll(f, pairs).Some?
    ensures NormalNames(f, NormalizeAll(f, pairs).value)
  {
    if pairs != [] {
      NormalizeAllNormal(f, pairs[..|pairs| - 1]);
    }
  }

  lemma ReadableNormal(f: Format, d: Directory, handle: string)
    requires Lawful(f) && Readable(f, d, handle).Some?
    ensures NormalNames(f, Readable(f, d, handle).value)
  {
    var file := ReadStore(d, handle).value;
    match file {
      case Legacy(_, secrets) => NormalizeAllNormal(f, secrets);
      case Encrypted(_, _, sealed) =>
        NormalizeAllNormal(f, f.decode(Decrypted(d.privateKey.value, sealed).value).value);
    }
  }

  lemma {:induction false} NormalizeAllFixed(f: Format, pairs: seq<(string, string)>)
    requires forall p | p in pairs :: f.normalize(p.0) == Some(p.0)
    ensures NormalizeAll(f, pairs) == Some(AsMap(pairs))
  {
    if pairs != [] {
      var init := pairs[..|pairs| - 1];
      assert forall p | p in init :: p in pairs;
      assert pairs[|pairs| - 1] in pairs;
      NormalizeAllFixed(f, init);
    }
  }

  lemma {:induction false} AsMapKeys(pairs: seq<(string, string)>)
    ensures forall p | p in pairs :: p.0 in AsMap(pairs)
  {
    if pairs != [] {
      AsMapKeys(pairs[..|pairs| - 1]);
      assert pairs == pairs[..|pairs| - 1] + [pairs[|pairs| - 1]];
    }
  }

  /** What _encrypted_store_payload writes for a handle under a public key. */
  function EncryptedFile(f: Format, handle: string, values: Values, publicKey: nat): StoreFile {
    Encrypted(handle, multiset(values.Keys), SealAll(publicKey, Chunks(f.encode(values))))
  }

  /** A freshly written store reads back under its handle exactly when the directory's private key
      opens what the public key sealed. */
  lemma WrittenReadsBack(f: Format, d: Directory, handle: string, values: Values, publicKey: nat)
    requires Lawful(f) && NormalNames(f, values)
    requires d.store == Some(EncryptedFile(f, handle, values, publicKey))
    ensures Readable(f, d, handle) == if d.privateKey == Some(publicKey) then Some(values) else None
  {
    if d.privateKey.Some? {
      EncryptThenDecrypt(publicKey, d.privateKey.value, f.encode(values));
      if d.privateKey.value == publicKey {
        var pairs := f.decode(f.encode(values)).value;
        AsMapKeys(pairs);
        NormalizeAllFixed(f, pairs);
      }
    }
  }

  // ---------------------------------------------------------------- rewriting a store

  datatype KeyFault = NoKeyFault | PrivateFails | PublicFails

  datatype WriteFault = NoWriteFault | BeforeReplace | AfterReplace

  /** What goes wrong in one rewrite: key creation, the cipher, or the file write; and the number of
      the key pair that key creation would draw. */
  datatype RewriteFaults = RewriteFaults(keys: KeyFault, cipher: bool, write: WriteFault, drawn: nat)

  /** The key pair is created only when neither file exists, and refused when one is missing. */
  function EnsureKeys(d: Directory, fault: KeyFault, drawn: nat): (Directory, bool) {
    if d.privateKey.Some? != d.publicKey.Some? then (d, false)
    else if d.privateKey.Some? then (d, true)
    else
      match fault
      case PrivateFails => (d, false)
      case PublicFails => (d.(privateKey := Some(drawn)), false)
      case NoKeyFault => (d.(privateKey := Some(drawn), publicKey := Some(drawn)), true)
  }

  /** Encrypt the values for the handle and write the store; false when something raised. */
  function Rewrite(f: Format, d: Directory, handle: string, values: Values, x: RewriteFaults): (Directory, bool) {
    var (keyed, ok) := EnsureKeys(d, x.keys, x.drawn);
    if !ok || keyed.publicKey.None? || x.cipher then (keyed, false)
    else
      var written := keyed.(store := Some(EncryptedFile(f, handle, values, keyed.publicKey.value)));
      match x.write
      case BeforeReplace => (keyed, false)
      case AfterReplace => (written, false)
      case NoWriteFault => (written, true)
  }

  /** The two key files, when both exist, are one pair. */
  predicate KeysMatch(d: Directory) {
    d.privateKey.Some? && d.publicKey.Some? ==> d.privateKey == d.publicKey
  }

  lemma RewriteReads(f: Format, d: Directory, handle: string, values: Values, x: RewriteFaults)
    requires Lawful(f) && NormalNames(f, values)
    ensures var (d', ok) := Rewrite(f, d, handle, values, x);
            && (ok ==> (Readable(f, d', handle) == Some(values) <==> KeysMatch(d)))
            && (KeysMatch(d) <==> KeysMatch(d'))
            && (d.privateKey.Some? ==> d'.privateKey == d.privateKey)
  {
    var (d', ok) := Rewrite(f, d, handle, values, x);
    if ok {
      WrittenReadsBack(f, d', handle, values, d'.publicKey.value);
    }
  }

  /** Both key files are there, or neither is and drawing a pair works. */
  predicate KeysUsable(d: Directory, x: RewriteFaults) {
    if d.privateKey.None? && d.publicKey.None? then x.keys == NoKeyFault else d.privateKey.Some? && d.publicKey.Some?
  }

  /** A rewrite works exactly if nothing goes wrong and the key files are both there or both missing. */
  predicate RewriteWorks(d: Directory, x: RewriteFaults) {
    KeysUsable(d, x) && !x.cipher && x.write == NoWriteFault
  }

  /** The number of the pair that the directory seals under. */
  function SealingKey(d: Directory, x: RewriteFaults): nat
    requires KeysUsable(d, x)
  {
    if d.publicKey.Some? then d.publicKey.value else x.drawn
  }

  /** What a rewrite leaves: a drawn pair where there was none, as far as it got, and never another key file in
      place of one; and the new store as soon as it is written, and the old one until then. */
  lemma RewriteMeans(f: Format, d: Directory, handle: string, values: Values, x: RewriteFaults)
    ensures var (d', ok) := Rewrite(f, d, handle, values, x);
            && (ok <==> RewriteWorks(d, x))
            && (d.privateKey.Some? || d.publicKey.Some? ==>
                  d'.privateKey == d.privateKey && d'.publicKey == d.publicKey)
            && (d.privateKey.None? && d.publicKey.None? ==>
                  && (d'.privateKey == if x.keys == PrivateFails then None else Some(x.drawn))
                  && (d'.publicKey == if x.keys == NoKeyFault then Some(x.drawn) else None))
            && d'.store == if KeysUsable(d, x) && !x.cipher && x.write != BeforeReplace
                           then Some(EncryptedFile(f, handle, values, SealingKey(d, x))) else d.store
  {
  }

  // ---------------------------------------------------------------- rename

  datatype Outcome = AlreadyCurrent | NothingToMove(newExists: bool) | Renamed | Failed | RollbackFailed

  /** What goes wrong in a rename. Another process may meanwhile use the old handle, which makes a new
      directory for it, empty or with keys and values of its own. */
  datatype Faults = Faults(parent: bool, move: bool, interloper: Option<Directory>, rewrite: RewriteFaults,
                           moveBack: bool, restore: RewriteFaults)

  type Root = map<string, Directory>

  function Rename(f: Format, root: Root, old_: string, new_: string, x: Faults): (Root, Outcome) {
    if old_ == new_ then (root, AlreadyCurrent)
    else if old_ !in root then (root, NothingToMove(new_ in root))
    else if new_ in root then (root, Failed)
    else
      match Readable(f, root[old_], old_)
      case None => (root, Failed)
      case Some(values) =>
        if x.parent || x.move then (root, Failed)
        else
          var moved := (root - {old_})[new_ := root[old_]];
          var busy := if x.interloper.Some? then moved[old_ := x.interloper.value] else moved;
          var (d, ok) := Rewrite(f, root[old_], new_, values, x.rewrite);
          var written := busy[new_ := d];
          if ok then (written, Renamed)
          else if x.interloper.Some? then (written, Failed)
          else if x.moveBack then (written, RollbackFailed)
          else
            var (back, restored) := Rewrite(f, d, old_, values, x.restore);
            ((written - {new_})[old_ := back], if restored then Failed else RollbackFailed)
  }

  class HatStores {
    var root: Root

    /** Encrypt, then write, updating the directory in place. */
    method RewriteStore(f: Format, directory: string, handle: string, values: Values, x: RewriteFaults)
      returns (ok: bool)
      requires directory in root
      modifies this
      ensures var (d, done) := Rewrite(f, old(root)[directory], handle, values, x);
              root == old(root)[directory := d] && ok == done
    {
      var d := root[directory];
      if d.privateKey.Some? != d.publicKey.Some? {
        return false;
      }
      if d.privateKey.None? {
        if x.keys == PrivateFails {
          return false;
        }
        d := d.(privateKey := Some(x.drawn));
        root := root[directory := d];
        if x.keys == PublicFails {
          return false;
        }
        d := d.(publicKey := Some(x.drawn));
        root := root[directory := d];
      }
      if x.cipher {
        return false;
      }
      var sealed := EncryptBytes(d.publicKey.value, f.encode(values));
      if x.write == BeforeReplace {
        return false;
      }
      root := root[directory := d.(store := Some(Encrypted(handle, multiset(values.Keys), sealed)))];
      return x.write == NoWriteFault;
    }

    /** The rename, step by step, with each step that may raise decided by the faults. */
    method RenameStore(f: Format, old_: string, new_: string, x: Faults) returns (r: Outcome)
      modifies this
      ensures (root, r) == Rename(f, old(root), old_, new_, x)
    {
      if old_ == new_ {
        return AlreadyCurrent;
      }
      if old_ !in root {
        return NothingToMove(new_ in root);
      }
      if new_ in root {
        return Failed;
      }
      var values := Readable(f, root[old_], old_);
      if values.None? || x.parent || x.move {
        return Failed;
      }
      root := (root - {old_})[new_ := root[old_]];
      if x.interloper.Some? {
        root := root[old_ := x.interloper.value];
      }
      var ok := RewriteStore(f, new_, new_, values.value, x.rewrite);
      if ok {
        return Renamed;
      }
      if new_ in root && old_ !in root {
        if x.moveBack {
          return RollbackFailed;
        }
        root := (root - {new_})[old_ := root[new_]];
        ghost var back := root;
        ok := RewriteStore(f, old_, old_, values.value, x.restore);
        assert root == ((back - {old_})[new_ := back[old_]] - {new_})[old_ := root[old_]];
        assert root == Rename(f, old(root), old_, new_, x).0;
        if !ok {
          return RollbackFailed;
        }
      }
      return Failed;
    }
  }

  lemma RenameElsewhere(f: Format, root: Root, old_: string, new_: string, x: Faults, other: string)
    requires other != old_ && other != new_
    ensures var (root', _) := Rename(f, root, old_, new_, x);
            (other in root' <==> other in root) && (other in root ==> root'[other] == root[other])
  {
  }

  /** The rename gets as far as moving the store. */
  predicate Moves(f: Format, root: Root, old_: string, new_: string, x: Faults) {
    && old_ != new_ && old_ in root && new_ !in root && Readable(f, root[old_], old_).Some?
    && !x.parent && !x.move
  }

  /** Which outcome it is: renamed exactly if the store is moved and the rewrite works; a failed rollback exactly
      if the rewrite does not, nobody has taken the old place, and moving or rewriting it back does not work
      either. */
  lemma RenameOutcome(f: Format, root: Root, old_: string, new_: string, x: Faults)
    ensures var r := Rename(f, root, old_, new_, x).1;
            && (r == AlreadyCurrent <==> old_ == new_)
            && (r.NothingToMove? <==> old_ != new_ && old_ !in root)
            && (r.NothingToMove? ==> (r.newExists <==> new_ in root))
            && (r == Renamed <==> Moves(f, root, old_, new_, x) && RewriteWorks(root[old_], x.rewrite))
            && (r == RollbackFailed
                <==> && Moves(f, root, old_, new_, x) && !RewriteWorks(root[old_], x.rewrite) && x.interloper.None?
                     && var d := Rewrite(f, root[old_], new_, Readable(f, root[old_], old_).value, x.rewrite).0;
                        x.moveBack || !RewriteWorks(d, x.restore))
    ensures !Moves(f, root, old_, new_, x) ==> Rename(f, root, old_, new_, x).0 == root
  {
    if Moves(f, root, old_, new_, x) {
      var values := Readable(f, root[old_], old_).value;
      RewriteMeans(f, root[old_], new_, values, x.rewrite);
      RewriteMeans(f, Rewrite(f, root[old_], new_, values, x.rewrite).0, old_, values, x.restore);
    }
  }

  /** Where the directory is in the end: under the new handle when renamed, or when another process had taken the old
      place or moving back failed, and otherwise under the old one; never under both, except for what the other
      process put there; and with its private key, if it had one. */
  lemma RenameLeaves(f: Format, root: Root, old_: string, new_: string, x: Faults)
    requires Moves(f, root, old_, new_, x)
    ensures var (root', r) := Rename(f, root, old_, new_, x);
            var stays := r == Renamed || x.interloper.Some? || x.moveBack;
            && (new_ in root' <==> stays)
            && (old_ in root' <==> x.interloper.Some? || !stays)
            && (x.interloper.Some? ==> root'[old_] == x.interloper.value)
            && (root[old_].privateKey.Some? ==>
                  root'[if stays then new_ else old_].privateKey == root[old_].privateKey)
  {
    var values := Readable(f, root[old_], old_).value;
    RewriteMeans(f, root[old_], new_, values, x.rewrite);
    RewriteMeans(f, Rewrite(f, root[old_], new_, values, x.rewrite).0, old_, values, x.restore);
  }

  /** After a successful rename the new handle reads exactly the old map, provided that the key files
      are one pair and only then; nothing is left under the old handle but what another process made. */
  lemma RenameSucceeds(f: Format, root: Root, old_: string, new_: string, x: Faults)
    requires Lawful(f) && Rename(f, root, old_, new_, x).1 == Renamed
    ensures var root' := Rename(f, root, old_, new_, x).0;
            && old_ in root && Readable(f, root[old_], old_).Some?
            && new_ in root'
            && (Readable(f, root'[new_], new_) == Readable(f, root[old_], old_) <==> KeysMatch(root[old_]))
            && (old_ in root' <==> x.interloper.Some?)
            && (x.interloper.Some? ==> root'[old_] == x.interloper.value)
  {
    ReadableNormal(f, root[old_], old_);
    RewriteReads(f, root[old_], new_, Readable(f, root[old_], old_).value, x.rewrite);
  }

  /** A rename that fails, other than in its rollback, leaves the same map readable under the old handle
      exactly if it never moved the store, or moved it back over key files that are one pair, or another
      process has put the same map there while the store was away. */
  lemma RenameFails(f: Format, root: Root, old_: string, new_: string, x: Faults)
    requires Lawful(f) && Rename(f, root, old_, new_, x).1 == Failed
    requires old_ in root && Readable(f, root[old_], old_).Some?
    ensures var root' := Rename(f, root, old_, new_, x).0;
            && old_ in root'
            && (Readable(f, root'[old_], old_) == Readable(f, root[old_], old_)
                <==> new_ in root || x.parent || x.move
                     || if x.interloper.Some?
                        then Readable(f, x.interloper.value, old_) == Readable(f, root[old_], old_)
                        else KeysMatch(root[old_]))
  {
    ReadableNormal(f, root[old_], old_);
    var values := Readable(f, root[old_], old_).value;
    RewriteReads(f, root[old_], new_, values, x.rewrite);
    var (d, _) := Rewrite(f, root[old_], new_, values, x.rewrite);
    RewriteReads(f, d, old_, values, x.restore);
  }

  const OLD := "a/hats/old"
  const NEW := "a/hats/new"
  const QUIET := RewriteFaults(NoKeyFault, false, NoWriteFault, 0)

  /** A store with one value under the old handle, and two key files. */
  function OneValue(privateKey: Option<nat>, publicKey: Option<nat>): Root {
    map[OLD := Directory(Some(Legacy(OLD, [("K", "v")])), privateKey, publicKey)]
  }

  lemma OneValueReads(f: Format, privateKey: Option<nat>, publicKey: Option<nat>)
    requires f.normalize("K") == Some("K")
    ensures OLD != NEW
    ensures Readable(f, OneValue(privateKey, publicKey)[OLD], OLD) == Some(map["K" := "v"])
  {
    var pairs := [("K", "v")];
    assert pairs[..0] == [];
    assert NormalizeAll(f, pairs) == Some(map["K" := "v"]);
    assert OLD[7] != NEW[7];
  }

  /** The rewrite fails while another process re-creates the old directory: the rename reports an ordinary
      failure and the value is readable under neither handle. */
  lemma StrandedLosesValues(f: Format)
    requires f.normalize("K") == Some("K")
    ensures var root := OneValue(None, None);
            var x := Faults(false, false, Some(Directory(None, None, None)), QUIET.(cipher := true), false, QUIET);
            var (root', r) := Rename(f, root, OLD, NEW, x);
            && Readable(f, root[OLD], OLD) == Some(map["K" := "v"])
            && r == Failed
            && OLD in root' && Readable(f, root'[OLD], OLD) == Some(map[])
            && NEW in root' && Readable(f, root'[NEW], NEW) == None
  {
    OneValueReads(f, None, None);
  }

  /** The rewrite fails, and the rollback moves the store back and rewrites it under a public key whose
      private key is not there: the rename reports an ordinary failure and the value is lost. */
  lemma MismatchedKeysLoseValues(f: Format)
    requires Lawful(f) && f.normalize("K") == Some("K")
    ensures var root := OneValue(Some(1), Some(2));
            var x := Faults(false, false, None, QUIET.(cipher := true), false, QUIET);
            var (root', r) := Rename(f, root, OLD, NEW, x);
            && Readable(f, root[OLD], OLD) == Some(map["K" := "v"])
            && r == Failed
            && OLD in root' && Readable(f, root'[OLD], OLD) == None
            && NEW !in root'
  {
    var root := OneValue(Some(1), Some(2));
    var x := Faults(false, false, None, QUIET.(cipher := true), false, QUIET);
    OneValueReads(f, Some(1), Some(2));
    WrittenReadsBack(f, Rename(f, root, OLD, NEW, x).0[OLD], OLD, map["K" := "v"], 2);
  }
}
