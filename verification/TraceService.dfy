/**
 Uploading a trace: the client of packages/trace/src/trace-client.ts, the handler of
 services/infra/src/api/traces.ts and the table of services/infra/src/store/traces.ts.
 Hashing, pinning and signing are parameters; digests and hashes are the numbers their
 hexadecimal texts denote, so letter case plays no part.
 */
module TraceService {
  import opened Json
  import opened JsonText
  import opened CanonicalForm
  import opened JsonParse
  import opened CanonicalJson
  import opened TraceSchema

  /** The `trace` field of a request: text used verbatim, or an object or array. */
  datatype Upload = Text(text: string) | Tree(value: Value)

  function ToCanonicalBytes(u: Upload): string {
    match u
    case Text(text) => text
    case Tree(value) => Encode(value)
  }

  // ----- the client's request, as the server reads it

  /** The body uploadTrace sends, for the object JSON.parse made of the canonical text. */
  function RequestBody(agentId: string, owner: string, digest: string, payload: Value): Value {
    Obj([Field("agentId", Str(agentId)), Field("owner", Str(owner)),
         Field("contextDigest", Str(digest)), Field("trace", payload)])
  }

  lemma BodyRoundTrip(agentId: string, owner: string, digest: string, payload: Value)
    requires Plain(payload)
    ensures var body := RequestBody(agentId, owner, digest, payload);
            Parse(Print(body)) == Some(body) && Prop(body, "trace") == payload
  {
    var body := RequestBody(agentId, owner, digest, payload);
    assert |"agentId"| == 7 && |"owner"| == 5 && |"contextDigest"| == 13 && |"trace"| == 5;
    assert "owner"[0] == 'o' && "trace"[0] == 't';
    assert Distinct(body.fields);
    GetOf(body.fields, 3);
    PrintRoundTrip(body);
  }

  /**
   For every trace the client can serialize, and whatever the hash function is, the digest
   the server recomputes from the request it reads is the digest the client computed.
   */
  lemma HonestUploadAccepted(hash: string -> nat, trace: Value, agentId: string, owner: string, digest: string)
    requires WellFormed(trace) && SerializeCanonical(trace).Ok?
    ensures var text := SerializeCanonical(trace).value;
            Parse(text).Some? &&
            var sent := Print(RequestBody(agentId, owner, digest, Parse(text).value));
            Parse(sent).Some? &&
            hash(ToCanonicalBytes(Tree(Prop(Parse(sent).value, "trace")))) == hash(text)
  {
    hide ValidTrace, NormalizeTrace, Parse, Print, Encode, Stringify, RequestBody, Prop, Plain, WellFormed;
    NormalizeOnlyReorders(trace);
    HandOff(NormalizeTrace(trace));
    BodyRoundTrip(agentId, owner, digest, Parse(SerializeCanonical(trace).value).value);
  }

  // ----- the trace table

  datatype TraceRow = TraceRow(
    traceUri: string,
    uriHash: nat,
    agentId: nat,
    owner: nat,
    traceJson: string,
    expiresAt: int,
    signer: nat,
    signature: nat,
    createdAt: int)

  /** The acknowledgement; agentId and owner are those of the request. */
  datatype Response =
    | Acked(traceUri: string, uriHash: nat, expiresAt: int, signer: nat, signature: nat, agentId: nat, owner: nat)
    | DigestMismatch

  /** INSERT ... ON CONFLICT(context_digest) DO UPDATE of the columns insertTrace lists. */
  function Upserted(rows: map<nat, TraceRow>, digest: nat, row: TraceRow): map<nat, TraceRow> {
    if digest in rows then
      rows[digest := rows[digest].(traceUri := row.traceUri, uriHash := row.uriHash, expiresAt := row.expiresAt,
                                  signer := row.signer, signature := row.signature)]
    else rows[digest := row]
  }

  class TraceStore {
    const hash: string -> nat
    var rows: map<nat, TraceRow>
    /** Digests a plain object or array with exactly the stored text was acknowledged for. */
    ghost var fromTree: set<nat>

    constructor (hash: string -> nat)
      ensures Valid() && rows == map[] && this.hash == hash
    {
      this.hash := hash;
      rows := map[];
      fromTree := {};
    }

    /** Every row is filed under the hash of its text, and its URI hash is the hash of its URI. */
    ghost predicate Valid()
      reads this
    {
      && (forall d :: d in rows ==> hash(rows[d].traceJson) == d && hash(rows[d].traceUri) == rows[d].uriHash)
      && fromTree <= rows.Keys
      && (forall d :: d in fromTree ==> IsEncoded(rows[d].traceJson))
    }

    method InsertTrace(digest: nat, row: TraceRow)
      modifies this`rows
      ensures rows == Upserted(old(rows), digest, row)
    {
      if digest in rows {
        rows := rows[digest := rows[digest].(traceUri := row.traceUri, uriHash := row.uriHash,
                                             expiresAt := row.expiresAt, signer := row.signer,
                                             signature := row.signature)];
      } else {
        rows := rows[digest := row];
      }
    }

    /**
     POST /v1/traces. `pinnedUri` is what the pinner returns for the text, `signer` and
     `signature` what the signer returns; `now` and `ttl` come from the clock and the environment.
     */
    method Post(contextDigest: nat, trace: Upload, agentId: nat, owner: nat,
                now: int, ttl: int, pinnedUri: string, signer: nat, signature: nat) returns (response: Response)
      requires Valid()
      modifies this`rows, this`fromTree
      ensures Valid()
      ensures response.DigestMismatch? <==> hash(ToCanonicalBytes(trace)) != contextDigest
      ensures response.DigestMismatch? ==> rows == old(rows)
      ensures response.Acked? ==> contextDigest in rows && response.uriHash == hash(response.traceUri)
      ensures response.Acked? ==>
        var row := rows[contextDigest];
        response == Acked(row.traceUri, row.uriHash, row.expiresAt, row.signer, row.signature, agentId, owner)
      ensures response.Acked? ==>
        if contextDigest in old(rows) && old(rows)[contextDigest].expiresAt > now then rows == old(rows)
        else rows == Upserted(old(rows), contextDigest,
          TraceRow(pinnedUri, hash(pinnedUri), agentId, owner, ToCanonicalBytes(trace), now + ttl, signer, signature, now))
      ensures trace.Text? ==> (response.Acked? <==> hash(trace.text) == contextDigest)
      ensures trace.Text? && response.Acked? && contextDigest !in old(rows) ==>
        rows[contextDigest].traceJson == trace.text
      ensures response.Acked? ==> response.expiresAt == now + ttl || response.expiresAt > now
      ensures contextDigest in old(rows) ==>
        var before, after := old(rows)[contextDigest], rows[contextDigest];
        after.agentId == before.agentId && after.owner == before.owner && after.traceJson == before.traceJson &&
        after.createdAt == before.createdAt
      ensures forall d :: d != contextDigest ==> (d in rows <==> d in old(rows)) && (d in rows ==> rows[d] == old(rows)[d])
      ensures old(fromTree) <= fromTree
      ensures response.Acked? && trace.Tree? && Plain(trace.value) && contextDigest !in fromTree ==>
        var stored := rows[contextDigest].traceJson;
        stored != Encode(trace.value) && hash(stored) == hash(Encode(trace.value)) == contextDigest
    {
      hide Plain, Encode, IsEncoded;
      var canonicalJson := ToCanonicalBytes(trace);
      var recomputedDigest := hash(canonicalJson);
      if recomputedDigest != contextDigest {
        return DigestMismatch;
      }
      if contextDigest in rows && rows[contextDigest].expiresAt > now {
        var cached := rows[contextDigest];
        NoteTree(contextDigest, trace);
        return Acked(cached.traceUri, cached.uriHash, cached.expiresAt, cached.signer, cached.signature, agentId, owner);
      }
      var uriHash := hash(pinnedUri);
      var expiresAt := now + ttl;
      InsertTrace(contextDigest, TraceRow(pinnedUri, uriHash, agentId, owner, canonicalJson, expiresAt, signer,
                                          signature, now));
      NoteTree(contextDigest, trace);
      return Acked(pinnedUri, uriHash, expiresAt, signer, signature, agentId, owner);
    }

    /** Notes that the row's text is the canonical text of the upload, when it is. */
    ghost method NoteTree(digest: nat, trace: Upload)
      requires Valid() && digest in rows
      modifies this`fromTree
      ensures Valid() && old(fromTree) <= fromTree
      ensures trace.Tree? && Plain(trace.value) && rows[digest].traceJson == Encode(trace.value) ==> digest in fromTree
    {
      if trace.Tree? && Plain(trace.value) && rows[digest].traceJson == Encode(trace.value) {
        assert Encoded(trace.value, rows[digest].traceJson);
        fromTree := fromTree + {digest};
      }
    }

    /**
     What the replay endpoint relies on: for a trace uploaded as an object, parsing the
     stored text and canonicalizing again gives the digest, however often it was re-signed
     and also when the row was first made by an upload of the same text as a string.
     */
    lemma ReplayReproducesDigest(digest: nat)
      requires Valid() && digest in fromTree
      ensures var parsed := Parse(rows[digest].traceJson);
              parsed.Some? && hash(Encode(parsed.value)) == digest
    {
      var v :| Encoded(v, rows[digest].traceJson);
      RecanonicalizedText(v);
    }
  }

  predicate Encoded(v: Value, text: string) {
    Plain(v) && Encode(v) == text
  }

  ghost predicate IsEncoded(text: string) {
    exists v :: Encoded(v, text)
  }

  /** Parsing a plain value's canonical text and encoding again gives the text. */
  lemma RecanonicalizedText(v: Value)
    requires Plain(v)
    ensures Parse(Encode(v)).Some? && Encode(Parse(Encode(v)).value) == Encode(v)
  {
    PlainHasNoFraction(v);
    EncodeRoundTrip(v, "");
    CanonIsSame(v);
    CanonIsCanonical(v);
    PlainHasNoFraction(Canon(v));
    OrderNeverShows(v, Canon(v));
  }
}
