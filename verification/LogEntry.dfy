/** How a log record is cut down to its limits, so that no entry exceeds the byte budget of an entry. */
module LogEntry {
  import opened LogRing

  const ENTRY_OVERHEAD: int := 64
  const FIELD_OVERHEAD: int := 16

  datatype Limits = Limits(
    messageBytes: int, fieldKeyBytes: int, fieldValueBytes: int, entryBytes: int, totalBytes: int, fields: int,
    sourceBytes: int)

  /** Replaces invalid byte sequences; nothing is assumed of it. */
  type Cleaner = Text -> Text

  function DefaultLimits(): Limits {
    Limits(4096, 256, 2048, 16384, 33554432, 64, 512)
  }

  predicate Normalized(l: Limits) {
    && l.messageBytes > 0 && l.fieldKeyBytes > 0 && l.fieldValueBytes > 0 && l.sourceBytes > 0 && l.fields > 0
    && ENTRY_OVERHEAD < l.entryBytes <= l.totalBytes
  }

  /** Every configuration is brought into a form in which an entry of full size fits into the whole budget. */
  function NormalizedLimits(v: Limits): (n: Limits)
    ensures Normalized(n)
    ensures v.entryBytes > ENTRY_OVERHEAD ==> n.entryBytes == v.entryBytes
    ensures n.totalBytes == if v.totalBytes >= n.entryBytes then v.totalBytes else n.entryBytes
    ensures v.messageBytes > 0 ==> n.messageBytes == v.messageBytes
    ensures v.fieldKeyBytes > 0 ==> n.fieldKeyBytes == v.fieldKeyBytes
    ensures v.fieldValueBytes > 0 ==> n.fieldValueBytes == v.fieldValueBytes
    ensures v.fields > 0 ==> n.fields == v.fields
    ensures v.sourceBytes > 0 ==> n.sourceBytes == v.sourceBytes
  {
    var d := DefaultLimits();
    var entryBytes := if v.entryBytes <= ENTRY_OVERHEAD then d.entryBytes else v.entryBytes;
    Limits(
      if v.messageBytes <= 0 then d.messageBytes else v.messageBytes,
      if v.fieldKeyBytes <= 0 then d.fieldKeyBytes else v.fieldKeyBytes,
      if v.fieldValueBytes <= 0 then d.fieldValueBytes else v.fieldValueBytes,
      entryBytes,
      if v.totalBytes < entryBytes then entryBytes else v.totalBytes,
      if v.fields <= 0 then d.fields else v.fields,
      if v.sourceBytes <= 0 then d.sourceBytes else v.sourceBytes)
  }


  // ---------------------------------------------------------------- cutting text

  /** A byte that begins a character in UTF-8. */
  predicate RuneStart(b: Byte) { !(128 <= b < 192) }

  const DOTS: Text := [46, 46, 46]

  /** The cut falls on a character boundary, the last one that is not beyond `bound`. */
  predicate CutAt(value: Text, bound: int, end: int) {
    && 0 <= end <= bound < |value|
    && (end == 0 || RuneStart(value[end]))
    && forall k :: end < k <= bound ==> !RuneStart(value[k])
  }

  predicate IsTruncation(value: Text, limit: int, r: Text) {
    if limit <= 0 then r == []
    else if |value| <= limit then r == value
    else if limit <= 3 then |r| <= limit && CutAt(value, limit, |r|) && r == value[..|r|]
    else 3 <= |r| <= limit && CutAt(value, limit - 3, |r| - 3) && r == value[..|r| - 3] + DOTS
  }

  method TruncateUTF8(text: Text, limit: int, clean: Cleaner) returns (r: Text)
    ensures IsTruncation(clean(text), limit, r)
    ensures |r| <= if limit < 0 then 0 else limit
  {
    var value := clean(text);
    if limit <= 0 { return []; }
    if |value| <= limit { return value; }
    var bound := if limit <= 3 then limit else limit - 3;
    var end := bound;
    while end > 0 && !RuneStart(value[end])
      invariant 0 <= end <= bound
      invariant forall k :: end < k <= bound ==> !RuneStart(value[k])
    {
      end := end - 1;
    }
    r := if limit <= 3 then value[..end] else value[..end] + DOTS;
  }

  method FitText(text: Text, individual: int, remaining: int, clean: Cleaner) returns (r: Text, left: int)
    ensures remaining <= 0 ==> r == [] && left == remaining
    ensures remaining > 0 ==>
              && IsTruncation(clean(text), if individual < remaining then individual else remaining, r)
              && left == remaining - |r| >= 0
  {
    if remaining <= 0 { return [], remaining; }
    var limit := if individual < remaining then individual else remaining;
    r := TruncateUTF8(text, limit, clean);
    left := remaining - |r|;
  }

  /** A character in UTF-8: a byte that is no continuation byte and up to three that are. */
  predicate IsCharacter(c: Text) {
    1 <= |c| <= 4 && !(0x80 <= c[0] <= 0xBF) && forall i :: 1 <= i < |c| ==> 0x80 <= c[i] <= 0xBF
  }

  function Joined(chars: seq<Text>): Text {
    if chars == [] then [] else Joined(chars[..|chars| - 1]) + chars[|chars| - 1]
  }

  lemma {:induction false} JoinedPrefix(chars: seq<Text>, k: nat)
    requires k < |chars|
    ensures Joined(chars[..k]) + chars[k] <= Joined(chars)
    decreases |chars|
  {
    var front := chars[..|chars| - 1];
    if k < |front| {
      JoinedPrefix(front, k);
      assert front[..k] == chars[..k];
    }
  }

  /** The character on which a position of the text falls. */
  lemma {:induction false} CharacterAt(chars: seq<Text>, p: nat) returns (k: nat)
    requires p < |Joined(chars)|
    ensures k < |chars| && |Joined(chars[..k])| <= p < |Joined(chars[..k])| + |chars[k]|
    decreases |chars|
  {
    var front := chars[..|chars| - 1];
    if p < |Joined(front)| {
      k := CharacterAt(front, p);
      assert front[..k] == chars[..k];
    } else {
      k := |front|;
    }
  }

  /** The cut is where the character that does not fit begins. */
  lemma CutKeepsCharacters(chars: seq<Text>, bound: int, end: int) returns (k: nat)
    requires forall i :: 0 <= i < |chars| ==> IsCharacter(chars[i])
    requires CutAt(Joined(chars), bound, end)
    ensures k < |chars| && Joined(chars)[..end] == Joined(chars[..k])
    ensures |Joined(chars[..k])| <= bound < |Joined(chars[..k])| + |chars[k]|
  {
    var value := Joined(chars);
    k := CharacterAt(chars, bound);
    JoinedPrefix(chars, k);
    var m := |Joined(chars[..k])|;
    assert IsCharacter(chars[k]);
    assert forall i :: 0 <= i < |chars[k]| ==> value[m + i] == chars[k][i];
    assert RuneStart(value[m]);
    forall j | m < j < m + |chars[k]|
      ensures !RuneStart(value[j])
    {
      assert value[j] == chars[k][j - m];
    }
  }

  /**
   A text of whole characters that is too long is cut to the most of them that fit, with three dots if there is room
   for them; the dots take their three bytes of the limit.
   */
  lemma TruncationMeans(chars: seq<Text>, limit: int, r: Text)
    requires forall i :: 0 <= i < |chars| ==> IsCharacter(chars[i])
    requires IsTruncation(Joined(chars), limit, r)
    ensures limit <= 0 ==> r == []
    ensures 0 < limit && |Joined(chars)| <= limit ==> r == Joined(chars)
    ensures 0 < limit < |Joined(chars)| ==>
              var room, dots := if limit <= 3 then limit else limit - 3, if limit <= 3 then [] else [46, 46, 46];
              exists k :: 0 <= k < |chars| && r == Joined(chars[..k]) + dots
                          && |Joined(chars[..k])| <= room < |Joined(chars[..k])| + |chars[k]|
  {
    if 0 < limit < |Joined(chars)| {
      var room := if limit <= 3 then limit else limit - 3;
      var k := CutKeepsCharacters(chars, room, if limit <= 3 then |r| else |r| - 3);
      assert Joined(chars[..k]) + [] == Joined(chars[..k]);
    }
  }

  // ---------------------------------------------------------------- building an entry

  function FieldsSize(fields: seq<Field>): int {
    if fields == [] then 0
    else
      var f := fields[|fields| - 1];
      FieldsSize(fields[..|fields| - 1]) + FIELD_OVERHEAD + |f.key| + |f.value|
  }

  /** The approximate encoded size of an entry. */
  function SizeOf(entry: Entry): int {
    ENTRY_OVERHEAD + |entry.message| + |entry.source| + FieldsSize(entry.fields)
  }

  /** What the entry's budget has left after the message and the source. */
  function Budget(limits: Limits, message: Text, source: Text): int {
    limits.entryBytes - ENTRY_OVERHEAD - |message| - |source|
  }

  function Smaller(a: int, b: int): int { if a < b then a else b }

  /** Key and value are those given, cut to their own limits and to what is left of the budget. */
  predicate KeptField(given: Field, limits: Limits, left: int, f: Field, clean: Cleaner) {
    && IsTruncation(clean(given.key), limits.fieldKeyBytes, f.key)
    && left > |f.key| + FIELD_OVERHEAD
    && IsTruncation(clean(given.value), Smaller(limits.fieldValueBytes, left - |f.key| - FIELD_OVERHEAD), f.value)
  }

  /** Each kept field is the given one at its place, cut to what those before it leave of the budget. */
  predicate KeptFields(values: seq<Field>, limits: Limits, budget: int, fields: seq<Field>, clean: Cleaner) {
    && |fields| <= |values|
    && forall i :: 0 <= i < |fields| ==>
         KeptField(values[i], limits, budget - FieldsSize(fields[..i]), fields[i], clean)
  }

  /** The key alone takes what is left. */
  ghost predicate NoRoomFor(given: Field, limits: Limits, left: int, clean: Cleaner) {
    exists key :: IsTruncation(clean(given.key), limits.fieldKeyBytes, key) && left <= |key| + FIELD_OVERHEAD
  }

  /**
   The size of a built entry is exact and within the budget of an entry. Message, source, keys and values are those
   given, cut to their limits and to what is left; a field is left out only when as many fields as allowed are
   kept before it or there is no room for it.
   */
  method BuildEntry(level: int, message: Text, source: Text, values: seq<Field>, limits: Limits, clean: Cleaner)
    returns (entry: Entry, size: int)
    requires Normalized(limits)
    ensures size == SizeOf(entry) && ENTRY_OVERHEAD <= size <= limits.entryBytes
    ensures entry.level == level && |entry.fields| <= limits.fields
    ensures IsTruncation(clean(message), Smaller(limits.messageBytes, Budget(limits, [], [])), entry.message)
    ensures IsTruncation(clean(source), Smaller(limits.sourceBytes, Budget(limits, entry.message, [])), entry.source)
    ensures KeptFields(values, limits, Budget(limits, entry.message, entry.source), entry.fields, clean)
    ensures |entry.fields| < |values| ==>
              || |entry.fields| == limits.fields
              || NoRoomFor(values[|entry.fields|], limits, limits.entryBytes - size, clean)
  {
    hide IsTruncation, Normalized, NormalizedLimits, FieldsSize, KeptFields, NoRoomFor;
    PositiveLimits(limits);
    var remaining := limits.entryBytes - ENTRY_OVERHEAD;
    var text, origin: Text;
    text, remaining := FitText(message, limits.messageBytes, remaining, clean);
    origin, remaining := FitText(source, limits.sourceBytes, remaining, clean);
    NothingFits(clean(source), Smaller(limits.sourceBytes, Budget(limits, text, [])));
    var fields: seq<Field>;
    fields, remaining := KeepFields(values, limits, remaining, clean);
    entry := Entry(0, level, text, origin, fields);
    size := limits.entryBytes - remaining;
  }

  method KeepFields(values: seq<Field>, limits: Limits, budget: int, clean: Cleaner)
    returns (fields: seq<Field>, remaining: int)
    requires budget >= 0 && Normalized(limits)
    ensures |fields| <= |values| && |fields| <= limits.fields && 0 <= remaining == budget - FieldsSize(fields) <= budget
    ensures KeptFields(values, limits, budget, fields, clean)
    ensures |fields| < |values| ==> |fields| == limits.fields || NoRoomFor(values[|fields|], limits, remaining, clean)
  {
    PositiveLimits(limits);
    NoFields(values, limits, budget, clean);
    hide IsTruncation, Normalized, NormalizedLimits, FieldsSize, KeptField, KeptFields, NoRoomFor;
    fields, remaining := [], budget;
    var i := 0;
    while i < |values| && |fields| < limits.fields
      invariant 0 <= i == |fields| <= |values| && |fields| <= limits.fields
      invariant 0 <= remaining == budget - FieldsSize(fields) <= budget
      invariant KeptFields(values, limits, budget, fields, clean)
    {
      var key := TruncateUTF8(values[i].key, limits.fieldKeyBytes, clean);
      var need := |key| + FIELD_OVERHEAD;
      if remaining <= need {
        KeyTakesAll(values[i], limits, remaining, key, clean);
        return;
      }
      var room := if limits.fieldValueBytes < remaining - need then limits.fieldValueBytes else remaining - need;
      var value := TruncateUTF8(values[i].value, room, clean);
      FieldIsKept(values[i], limits, remaining, Field(key, value), clean);
      FieldAdded(values, limits, budget, fields, Field(key, value), clean);
      fields := fields + [Field(key, value)];
      remaining := remaining - need - |value|;
      i := i + 1;
    }
  }

  lemma PositiveLimits(limits: Limits)
    requires Normalized(limits)
    ensures limits.entryBytes > ENTRY_OVERHEAD && limits.fields > 0 && limits.fieldValueBytes > 0
  {
  }

  lemma NoFields(values: seq<Field>, limits: Limits, budget: int, clean: Cleaner)
    ensures FieldsSize([]) == 0 && KeptFields(values, limits, budget, [], clean)
  {
  }

  lemma KeyTakesAll(given: Field, limits: Limits, left: int, key: Text, clean: Cleaner)
    requires IsTruncation(clean(given.key), limits.fieldKeyBytes, key) && left <= |key| + FIELD_OVERHEAD
    ensures NoRoomFor(given, limits, left, clean)
  {
    hide IsTruncation;
  }

  lemma FieldIsKept(given: Field, limits: Limits, left: int, f: Field, clean: Cleaner)
    requires IsTruncation(clean(given.key), limits.fieldKeyBytes, f.key) && left > |f.key| + FIELD_OVERHEAD
    requires var room := left - |f.key| - FIELD_OVERHEAD;
             IsTruncation(clean(given.value), if limits.fieldValueBytes < room then limits.fieldValueBytes else room,
                          f.value)
    ensures KeptField(given, limits, left, f, clean)
  {
  }

  lemma NothingFits(value: Text, limit: int)
    ensures limit <= 0 ==> IsTruncation(value, limit, [])
  {
  }

  lemma FieldsSizeOneMore(fields: seq<Field>, f: Field)
    ensures FieldsSize(fields + [f]) == FieldsSize(fields) + FIELD_OVERHEAD + |f.key| + |f.value|
  {
    assert (fields + [f])[..|fields|] == fields;
  }

  lemma FieldAdded(
      values: seq<Field>, limits: Limits, budget: int, fields: seq<Field>, f: Field, clean: Cleaner)
    requires KeptFields(values, limits, budget, fields, clean) && |fields| < |values|
    requires KeptField(values[|fields|], limits, budget - FieldsSize(fields), f, clean)
    ensures FieldsSize(fields + [f]) == FieldsSize(fields) + FIELD_OVERHEAD + |f.key| + |f.value|
    ensures KeptFields(values, limits, budget, fields + [f], clean)
  {
    hide KeptField, FieldsSize;
    var longer := fields + [f];
    FieldsSizeOneMore(fields, f);
    forall i | 0 <= i < |longer|
      ensures KeptField(values[i], limits, budget - FieldsSize(longer[..i]), longer[i], clean)
    {
      if i < |fields| { assert longer[..i] == fields[..i]; } else { assert longer[..i] == fields; }
    }
  }

  /** Recording never takes the log over its byte budget: a built entry always fits into an emptied log. */
  method Handle(ring: Ring, level: int, message: Text, source: Text, values: seq<Field>, limits: Limits, clean: Cleaner)
    requires Normalized(limits) && ring.Valid() && ring.limit == limits.totalBytes
    modifies ring, ring.slots
    ensures ring.Valid() && ring.totalBytes <= limits.totalBytes
    ensures ring.nextId == old(ring.nextId) + 1 && ring.count > 0
    ensures |ring.history| == ring.nextId && ring.history[..old(ring.nextId)] == old(ring.history)
    ensures ring.history[old(ring.nextId)].entry.id == ring.nextId
    ensures SizeOf(ring.history[old(ring.nextId)].entry) == ring.history[old(ring.nextId)].size
    ensures var e := ring.history[old(ring.nextId)].entry;
            && e.level == level
            && IsTruncation(clean(message), Smaller(limits.messageBytes, Budget(limits, [], [])), e.message)
            && IsTruncation(clean(source), Smaller(limits.sourceBytes, Budget(limits, e.message, [])), e.source)
            && KeptFields(values, limits, Budget(limits, e.message, e.source), e.fields, clean)
  {
    hide IsTruncation, KeptFields, NoRoomFor, FieldsSize;
    var entry, size := BuildEntry(level, message, source, values, limits, clean);
    ring.Append(entry, size);
  }
}
