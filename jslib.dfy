/** The shared helpers of the JavaScript bots (`lib/index.js` and
    `cf/lib/index.js`, which hold the same `chunk`): splitting an array
    into chunks, how the Discord API wrapper turns a request body into what
    it sends, and the guard of `commandHandlerFunc`. */
module JsLib {

  // ---------------------------------------------------------------------
  // chunk

  /** `arr.slice(from)`: a negative start counts from the end. */
  function SliceFrom<T>(arr: seq<T>, from: int): (r: seq<T>)
    ensures 0 <= from <= |arr| ==> r == arr[from..]
  {
    var start := if from < 0 then (if |arr| + from < 0 then 0 else |arr| + from)
                 else if from > |arr| then |arr| else from;
    arr[start..]
  }

  /** `arr.slice(0, to)`: a negative end counts from the end. */
  function SliceTo<T>(arr: seq<T>, to: int): (r: seq<T>)
    ensures 0 <= to <= |arr| ==> r == arr[..to]
  {
    var end := if to < 0 then (if |arr| + to < 0 then 0 else |arr| + to)
               else if to > |arr| then |arr| else to;
    arr[..end]
  }

  /** `arr.slice(0, at)` and `arr.slice(at)` clamp `at` the same way, so the
      two pieces always put the array back together; a non-negative `at`
      within bounds cuts there, and a negative one within bounds keeps the
      last `-at` elements in the second piece. */
  lemma SliceSplit<T>(arr: seq<T>, at: int)
    ensures SliceTo(arr, at) + SliceFrom(arr, at) == arr
    ensures 0 <= at ==> |SliceTo(arr, at)| == (if at < |arr| then at else |arr|)
    ensures -|arr| <= at < 0 ==> |SliceFrom(arr, at)| == -at
    ensures at <= -|arr| ==> SliceFrom(arr, at) == arr
  {
  }

  /** `chunk(arr, size)`. It returns only when the array already fits or the
      size is positive; see ChunkDiverges for the other cases. */
  function Chunk<T>(arr: seq<T>, size: int): seq<seq<T>>
    requires |arr| <= size || size >= 1
    decreases |arr|
  {
    if |arr| <= size then [arr]
    else [SliceTo(arr, size)] + Chunk(SliceFrom(arr, size), size)
  }

  /** `chunk(arr)`: the size defaults to the array's length. */
  function ChunkDefault<T>(arr: seq<T>): seq<seq<T>> {
    Chunk(arr, |arr|)
  }

  /** The concatenation of a sequence of chunks. */
  function Flatten<T>(chunks: seq<seq<T>>): seq<T> {
    if chunks == [] then [] else chunks[0] + Flatten(chunks[1..])
  }

  /** The chunks put back together are the array, every chunk but the last
      has exactly `size` elements, and the last has at most `size` and is
      empty only for an empty array. */
  lemma {:induction false} ChunkShape<T>(arr: seq<T>, size: int)
    requires |arr| <= size || size >= 1
    ensures var cs := Chunk(arr, size);
      && cs != []
      && Flatten(cs) == arr
      && (forall k :: 0 <= k < |cs| - 1 ==> |cs[k]| == size)
      && |cs[|cs| - 1]| <= size
      && (cs[|cs| - 1] == [] <==> arr == [])
    decreases |arr|
  {
    if |arr| > size {
      var rest := SliceFrom(arr, size);
      ChunkShape(rest, size);
      var cs := Chunk(arr, size);
      assert cs == [arr[..size]] + Chunk(rest, size);
      assert cs[1..] == Chunk(rest, size);
      assert arr == arr[..size] + rest;
    }
  }

  /** An empty array is one empty chunk, and the default size gives the
      whole array as its only chunk. */
  lemma ChunkEdges<T>(arr: seq<T>, size: int)
    requires size >= 0
    ensures Chunk<T>([], size) == [[]]
    ensures ChunkDefault(arr) == [arr]
  {
  }

  /** With a size of zero or below, a non-empty array (or, for a negative
      size, any array) reaches an argument whose recursive call has the very
      same argument: the recursion never ends. */
  lemma ChunkDiverges<T>(arr: seq<T>, size: int)
    requires size <= 0 && |arr| > size
    ensures var next := SliceFrom(arr, size);
      && |next| > size
      && SliceFrom(next, size) == next
  {
    var next := SliceFrom(arr, size);
    if size < 0 {
      assert |next| <= -size;
    }
  }

  // ---------------------------------------------------------------------
  // Request bodies

  /** The JavaScript values a request body can be. Numbers are integers:
      NaN and fractions are not modelled. */
  datatype JsValue =
    | Null
    | Undefined
    | Bool(b: bool)
    | Num(n: int)
    | Str(s: string)
    | Obj(fields: seq<(string, JsValue)>)
    | Arr(items: seq<JsValue>)

  /** JavaScript truthiness. */
  predicate Truthy(v: JsValue) {
    match v
    case Null => false
    case Undefined => false
    case Bool(b) => b
    case Num(n) => n != 0
    case Str(s) => s != ""
    case Obj(_) => true
    case Arr(_) => true
  }

  /** A body on its way to `fetch`: still the caller's value, or the string
      `JSON.stringify(v)` (always a non-empty string, so truthy). */
  datatype Body = Plain(v: JsValue) | Encoded(json: JsValue)

  predicate IsString(b: Body) {
    b.Encoded? || b.v.Str?
  }

  predicate BodyTruthy(b: Body) {
    b.Encoded? || Truthy(b.v)
  }

  /** `if (body && typeof body !== 'string') body = JSON.stringify(body)`. */
  function EncodeObject(b: Body): Body {
    if BodyTruthy(b) && !IsString(b) then Encoded(b.v) else b
  }

  /** `if (body && typeof body === 'string') body = JSON.stringify({ content: body })`. */
  function WrapText(b: Body): Body {
    if BodyTruthy(b) && IsString(b) && b.Plain? then Encoded(Obj([("content", b.v)])) else b
  }

  /** The body `lib/index.js` sends. */
  function LibBody(body: JsValue): Body {
    EncodeObject(Plain(body))
  }

  /** The body `cf/lib/index.js` sends: the two steps in order. */
  function CfBody(body: JsValue): Body {
    EncodeObject(WrapText(Plain(body)))
  }

  /** In `lib/index.js` strings and falsy values pass unchanged and every
      other value is sent as its JSON encoding. */
  lemma LibBodyCases(body: JsValue)
    ensures LibBody(body) == if Truthy(body) && !body.Str? then Encoded(body) else Plain(body)
    ensures body.Str? ==> LibBody(body) == Plain(body)
  {
  }

  /** In `cf/lib/index.js` a non-empty string is sent as a message object
      holding it, encoded once; other truthy values are encoded; falsy
      values, the empty string among them, pass unchanged. */
  lemma CfBodyCases(body: JsValue)
    ensures body.Str? && body.s != "" ==> CfBody(body) == Encoded(Obj([("content", body)]))
    ensures !body.Str? && Truthy(body) ==> CfBody(body) == Encoded(body)
    ensures !Truthy(body) ==> CfBody(body) == Plain(body)
    ensures CfBody(body).Encoded? <==> Truthy(body)
  {
  }

  /** The two wrappers send the same body except for non-empty strings. */
  lemma BodiesAgree(body: JsValue)
    ensures LibBody(body) == CfBody(body) <==> !(body.Str? && body.s != "")
  {
  }

  // ---------------------------------------------------------------------
  // commandHandlerFunc

  /** `InteractionType.APPLICATION_COMMAND` of the interactions API. */
  const ApplicationCommand: int := 2

  /** The parts of an interaction the guard reads. */
  datatype Interaction = Interaction(itype: int, name: string)

  /** What the wrapped handler does: answer 400 itself, or call the bot's
      handler with the command name. */
  datatype Dispatch =
    | Reject(status: int, message: string, itype: int)
    | Call(cmd: string)

  /** `toLowerCase` on ASCII letters; other characters are kept. */
  function LowerChar(c: char): char {
    if 'A' <= c <= 'Z' then (c as int + 32) as char else c
  }

  function Lower(s: string): (r: string)
    ensures |r| == |s|
    ensures forall k :: 0 <= k < |s| ==> r[k] == LowerChar(s[k])
  {
    seq(|s|, k requires 0 <= k < |s| => LowerChar(s[k]))
  }

  /** Lower-casing leaves a string alone exactly when it holds no upper-case
      ASCII letter; its result holds none, so lower-casing twice is the same
      as once. */
  lemma LowerFixed(s: string)
    ensures Lower(s) == s <==> forall k :: 0 <= k < |s| ==> !('A' <= s[k] <= 'Z')
    ensures forall k :: 0 <= k < |s| ==> !('A' <= Lower(s)[k] <= 'Z')
    ensures Lower(Lower(s)) == Lower(s)
  {
    if Lower(s) == s {
      forall k | 0 <= k < |s|
        ensures !('A' <= s[k] <= 'Z')
      {
        assert Lower(s)[k] == LowerChar(s[k]);
      }
    }
  }

  /** The guard of `commandHandlerFunc`. */
  function HandleInteraction(i: Interaction): Dispatch {
    if i.itype != ApplicationCommand then Reject(400, "Unhandled interaction type", i.itype)
    else Call(Lower(i.name))
  }

  /** Only application commands reach the handler, with a name that has no
      upper-case ASCII letter and matches the sent one letter for letter
      ignoring case; lower-casing again changes nothing. */
  lemma HandleInteractionCases(i: Interaction)
    ensures HandleInteraction(i).Reject? <==> i.itype != ApplicationCommand
    ensures HandleInteraction(i).Reject? ==> HandleInteraction(i) == Reject(400, "Unhandled interaction type", i.itype)
    ensures HandleInteraction(i).Call? ==>
      var cmd := HandleInteraction(i).cmd;
      && |cmd| == |i.name|
      && (forall k :: 0 <= k < |cmd| ==> !('A' <= cmd[k] <= 'Z') && LowerChar(i.name[k]) == cmd[k])
      && Lower(cmd) == cmd
  {
  }
}
