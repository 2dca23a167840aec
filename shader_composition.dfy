/**
 * The shader header/footer composition store of the ANGLE shader helpers.
 *
 * Two fixed tables of five growable strings, one holding text to prepend to
 * shader sources and one holding text to append.  Each entry is a C string
 * (`text`, or null) together with a counted length `len`.  Appending a piece
 * copies the first `len` characters of the old text, then the piece, and adds
 * a newline when the piece does not end in one; that newline is NOT counted in
 * `len`, so the next append copies over it.
 */
module ShaderComposition {
  import opened Wrappers
  import opened Sequences

  /** The unsigned 32-bit `GLenum`/`unsigned int` shader type values. */
  newtype uint32 = x: int | 0 <= x < 0x1_0000_0000

  const GL_FRAGMENT_SHADER: uint32 := 0x8B30
  const GL_VERTEX_SHADER: uint32 := 0x8B31
  const GL_TESS_EVALUATION_SHADER: uint32 := 0x8E87
  const GL_TESS_CONTROL_SHADER: uint32 := 0x8E88
  const GL_GEOMETRY_SHADER: uint32 := 0x8DD9

  const NUM_SHADER_TYPES: nat := 5

  /** A C string: no character before the terminator is NUL. */
  predicate IsCString(s: string) {
    '\0' !in s
  }

  /** Which table slot a shader type selects: fragment shaders use slot 1, every other type slot 0. */
  function ShaderTypeIndex(sdrType: uint32): (idx: nat)
    ensures idx < NUM_SHADER_TYPES
    ensures idx == 1 <==> sdrType == GL_FRAGMENT_SHADER
    ensures idx != 1 ==> idx == 0
  {
    match sdrType
    case GL_VERTEX_SHADER => 0
    case GL_FRAGMENT_SHADER => 1
    case _ => 0
  }

  /** The human-readable name of a shader type, used in diagnostics. */
  function ShaderTypeName(sdrType: uint32): (name: string)
    ensures name in {"vertex", "pixel", "<unknown>"}
    ensures name == "vertex" <==> sdrType == GL_VERTEX_SHADER
    ensures name == "pixel" <==> sdrType == GL_FRAGMENT_SHADER
  {
    match sdrType
    case GL_VERTEX_SHADER => "vertex"
    case GL_FRAGMENT_SHADER => "pixel"
    case _ => "<unknown>"
  }

  /**
   * Only the vertex and fragment types have slots of their own: the
   * tessellation and geometry types share slot 0 with the vertex type, so a
   * header added for one of them is also the vertex shader's header.
   */
  lemma OtherTypesShareVertexSlot()
    ensures ShaderTypeIndex(GL_VERTEX_SHADER) == 0 && ShaderTypeIndex(GL_FRAGMENT_SHADER) == 1
    ensures ShaderTypeIndex(GL_GEOMETRY_SHADER) == ShaderTypeIndex(GL_VERTEX_SHADER)
    ensures ShaderTypeIndex(GL_TESS_CONTROL_SHADER) == ShaderTypeIndex(GL_VERTEX_SHADER)
    ensures ShaderTypeIndex(GL_TESS_EVALUATION_SHADER) == ShaderTypeIndex(GL_VERTEX_SHADER)
  {
  }

  /** One `struct string`: the C string held by the entry (None for null) and its counted length. */
  datatype Slot = Slot(text: Option<string>, len: int)

  /** The state of an entry after `clear_string_angle`, and of every entry at program start. */
  const Empty := Slot(None, 0)

  /**
   * The shape every entry keeps: a null text has length 0; a non-null text is
   * non-empty, holds no NUL, has its `len` counted characters first and ends in
   * a newline, which is the one uncounted character exactly when the last
   * counted character is not itself a newline.
   */
  predicate WellFormed(slot: Slot) {
    match slot.text
    case None => slot.len == 0
    case Some(t) =>
      IsCString(t) && 0 < slot.len <= |t| <= slot.len + 1 && t[|t| - 1] == '\n' &&
      (|t| == slot.len + 1 <==> t[slot.len - 1] != '\n')
  }

  /** The counted characters of an entry: what the next append keeps. */
  function Counted(slot: Slot): (c: string)
    requires WellFormed(slot)
    ensures |c| == slot.len
    ensures slot.text.Some? ==> c == slot.text.value[..slot.len]
  {
    match slot.text
    case None => []
    case Some(t) => t[..slot.len]
  }

  /**
   * The entry after appending `s`: a null or empty `s` changes nothing;
   * otherwise the counted text grows by exactly `s`, and the stored text ends
   * in a newline, added when `s` does not end in one.
   */
  function Appended(slot: Slot, s: Option<string>): (r: Slot)
    requires WellFormed(slot)
    requires s.Some? ==> IsCString(s.value)
    ensures WellFormed(r)
    ensures s == None || s == Some([]) ==> r == slot
    ensures s.Some? && s.value != [] ==>
      r.text.Some? && r.len == slot.len + |s.value| && Counted(r) == Counted(slot) + s.value
    ensures s.Some? && s.value != [] ==>
      (r.text.value == Counted(slot) + s.value + "\n" <==> s.value[|s.value| - 1] != '\n')
  {
    if s == None || s == Some([]) then slot
    else
      var piece := s.value;
      var copied := Counted(slot) + piece;
      var text := if piece[|piece| - 1] != '\n' then copied + "\n" else copied;
      assert copied[|copied| - 1] == piece[|piece| - 1];
      assert text[..|copied|] == copied;
      Slot(Some(text), slot.len + |piece|)
  }

  /** `append_string_angle`: replaces entry `idx` of `tbl` by the longer string. */
  method AppendString(tbl: array<Slot>, idx: nat, s: Option<string>)
    requires idx < tbl.Length && WellFormed(tbl[idx])
    requires s.Some? ==> IsCString(s.value)
    modifies tbl
    ensures tbl[idx] == Appended(old(tbl[idx]), s)
    ensures forall i :: 0 <= i < tbl.Length && i != idx ==> tbl[i] == old(tbl[i])
  {
    if s == None || s == Some([]) {
      return;
    }
    var piece := s.value;
    var len := |piece|;
    var newlen := tbl[idx].len + len;
    var newstr := Counted(tbl[idx]) + piece;
    if piece[len - 1] != '\n' {
      newstr := newstr + "\n";
    }
    tbl[idx] := Slot(Some(newstr), newlen);
  }

  /** `clear_string_angle`: frees the text of entry `idx` and resets it. */
  method ClearString(tbl: array<Slot>, idx: nat)
    requires idx < tbl.Length
    modifies tbl
    ensures tbl[idx] == Empty
    ensures forall i :: 0 <= i < tbl.Length && i != idx ==> tbl[i] == old(tbl[i])
  {
    tbl[idx] := Empty;
  }

  /** Whether an add/clear for `sdrType` acts on slot `i`: type 0 acts on all slots. */
  predicate Targets(sdrType: uint32, i: nat) {
    sdrType == 0 || i == ShaderTypeIndex(sdrType)
  }

  predicate AllWellFormed(t: seq<Slot>) {
    forall i :: 0 <= i < |t| ==> WellFormed(t[i])
  }

  /** A table after clearing for `sdrType`: one slot, or all of them for type 0. */
  function ClearedTable(t: seq<Slot>, sdrType: uint32): (r: seq<Slot>)
    requires |t| == NUM_SHADER_TYPES
    ensures |r| == |t| && (AllWellFormed(t) ==> AllWellFormed(r))
    ensures forall i :: 0 <= i < |t| ==> r[i] == if Targets(sdrType, i) then Empty else t[i]
  {
    if sdrType != 0 then t[ShaderTypeIndex(sdrType) := Empty]
    else seq(NUM_SHADER_TYPES, _ => Empty)
  }

  /** A table after appending `s` for `sdrType`: one slot, or all of them for type 0. */
  function AppendedTable(t: seq<Slot>, sdrType: uint32, s: Option<string>): (r: seq<Slot>)
    requires |t| == NUM_SHADER_TYPES && AllWellFormed(t)
    requires s.Some? ==> IsCString(s.value)
    ensures |r| == |t| && AllWellFormed(r)
    ensures forall i :: 0 <= i < |t| ==> r[i] == if Targets(sdrType, i) then Appended(t[i], s) else t[i]
  {
    if sdrType != 0 then t[ShaderTypeIndex(sdrType) := Appended(t[ShaderTypeIndex(sdrType)], s)]
    else seq(NUM_SHADER_TYPES, i requires 0 <= i < NUM_SHADER_TYPES => Appended(t[i], s))
  }

  /** Clearing is idempotent: clearing the same type twice is clearing it once. */
  lemma ClearTwice(t: seq<Slot>, sdrType: uint32)
    requires |t| == NUM_SHADER_TYPES
    ensures ClearedTable(ClearedTable(t, sdrType), sdrType) == ClearedTable(t, sdrType)
  {
  }

  /** The clear loop shared by both tables: one slot, or all of them for type 0. */
  method ClearSlots(tbl: array<Slot>, sdrType: uint32)
    requires tbl.Length == NUM_SHADER_TYPES
    modifies tbl
    ensures tbl[..] == ClearedTable(old(tbl[..]), sdrType)
  {
    if sdrType != 0 {
      var idx := ShaderTypeIndex(sdrType);
      ClearString(tbl, idx);
    } else {
      var i := 0;
      while i < NUM_SHADER_TYPES
        invariant 0 <= i <= NUM_SHADER_TYPES
        invariant forall j :: 0 <= j < i ==> tbl[j] == Empty
        invariant forall j :: i <= j < NUM_SHADER_TYPES ==> tbl[j] == old(tbl[j])
      {
        ClearString(tbl, i);
        i := i + 1;
      }
    }
  }

  /** The append loop shared by both tables: one slot, or all of them for type 0. */
  method AppendSlots(tbl: array<Slot>, sdrType: uint32, s: Option<string>)
    requires tbl.Length == NUM_SHADER_TYPES && AllWellFormed(tbl[..])
    requires s.Some? ==> IsCString(s.value)
    modifies tbl
    ensures tbl[..] == AppendedTable(old(tbl[..]), sdrType, s)
  {
    if sdrType != 0 {
      var idx := ShaderTypeIndex(sdrType);
      AppendString(tbl, idx, s);
    } else {
      var i := 0;
      while i < NUM_SHADER_TYPES
        invariant 0 <= i <= NUM_SHADER_TYPES
        invariant forall j :: 0 <= j < i ==> tbl[j] == Appended(old(tbl[j]), s)
        invariant forall j :: i <= j < NUM_SHADER_TYPES ==> tbl[j] == old(tbl[j])
      {
        AppendString(tbl, i, s);
        i := i + 1;
      }
    }
  }

  /** The pieces of a sequence of appends, joined with nothing between them. */
  function Concat(pieces: seq<string>): string {
    if pieces == [] then [] else pieces[0] + Concat(pieces[1..])
  }

  predicate AllCStrings(pieces: seq<string>) {
    forall i :: 0 <= i < |pieces| ==> IsCString(pieces[i])
  }

  lemma AllCStringsTail(pieces: seq<string>)
    requires pieces != [] && AllCStrings(pieces)
    ensures IsCString(pieces[0]) && AllCStrings(pieces[1..])
  {
  }

  /** An entry after appending each of `pieces` in turn, as repeated add calls do. */
  function AppendAll(slot: Slot, pieces: seq<string>): (r: Slot)
    requires WellFormed(slot) && AllCStrings(pieces)
    ensures WellFormed(r)
    ensures r.len >= slot.len && (slot.text.Some? ==> r.text.Some?)
    decreases |pieces|
  {
    if pieces == [] then slot else AppendAll(Appended(slot, Some(pieces[0])), pieces[1..])
  }

  /** Every append keeps the counted text and extends it by the piece, so the counted text is the concatenation. */
  lemma {:induction false} AppendAllCounted(slot: Slot, pieces: seq<string>)
    requires WellFormed(slot) && AllCStrings(pieces)
    ensures Counted(AppendAll(slot, pieces)) == Counted(slot) + Concat(pieces)
    decreases |pieces|
  {
    if pieces != [] {
      var next := Appended(slot, Some(pieces[0]));
      AllCStringsTail(pieces);
      AppendAllCounted(next, pieces[1..]);
      ConcatAssoc(Counted(slot), pieces[0], Concat(pieces[1..]));
    }
  }

  /**
   * What a sequence of appends to a cleared entry stores: the pieces run
   * together, with one newline at the very end unless the last piece already
   * ends in one.  The newline added after an earlier piece is not counted and
   * is overwritten by the next piece, so pieces are NOT separated by newlines.
   */
  lemma ComposedText(pieces: seq<string>)
    requires AllCStrings(pieces)
    ensures var c := Concat(pieces);
            AppendAll(Empty, pieces).text ==
              if c == [] then None
              else Some(if c[|c| - 1] == '\n' then c else c + "\n")
  {
    var r := AppendAll(Empty, pieces);
    var c := Concat(pieces);
    AppendAllCounted(Empty, pieces);
    assert Counted(r) == c;
    match r.text
    case None =>
      assert c == [];
    case Some(t) =>
      assert 0 < r.len <= |t| <= r.len + 1;
      assert t[..r.len] == c && |c| == r.len;
      if |t| == r.len {
        assert t == c;
        assert c[|c| - 1] == '\n';
      } else {
        assert c[|c| - 1] != '\n' && t[r.len] == '\n';
        assert t == c + "\n";
      }
  }

  /**
   * The quirk on two appends: after `a` the text is `a` plus a newline, but the
   * next append copies only the counted characters, so `b` lands where that
   * newline was.
   */
  lemma NewlineOverwritten(slot: Slot, a: string, b: string)
    requires WellFormed(slot) && IsCString(a) && IsCString(b) && a != [] && b != []
    requires a[|a| - 1] != '\n'
    ensures Appended(slot, Some(a)).text == Some(Counted(slot) + a + "\n")
    ensures var t := Appended(Appended(slot, Some(a)), Some(b)).text.value;
            t[..slot.len + |a| + |b|] == Counted(slot) + a + b && t[slot.len + |a|] == b[0]
  {
  }

  /** The two static tables `header[NUM_SHADER_TYPES]` and `footer[NUM_SHADER_TYPES]`. */
  class Composer {
    const header: array<Slot>
    const footer: array<Slot>

    ghost predicate Valid()
      reads this, header, footer
    {
      header.Length == NUM_SHADER_TYPES && footer.Length == NUM_SHADER_TYPES &&
      header != footer && AllWellFormed(header[..]) && AllWellFormed(footer[..])
    }

    /** Static storage starts zeroed: every text null, every length 0. */
    constructor ()
      ensures Valid() && fresh(header) && fresh(footer)
      ensures forall i :: 0 <= i < NUM_SHADER_TYPES ==> header[i] == Empty && footer[i] == Empty
    {
      header := new Slot[NUM_SHADER_TYPES](_ => Empty);
      footer := new Slot[NUM_SHADER_TYPES](_ => Empty);
    }

    /** `clear_shader_header_angle`. */
    method ClearHeader(sdrType: uint32)
      requires Valid()
      modifies header
      ensures Valid()
      ensures header[..] == ClearedTable(old(header[..]), sdrType)
      ensures footer[..] == old(footer[..])
    {
      ClearSlots(header, sdrType);
    }

    /** `clear_shader_footer_angle`. */
    method ClearFooter(sdrType: uint32)
      requires Valid()
      modifies footer
      ensures Valid()
      ensures footer[..] == ClearedTable(old(footer[..]), sdrType)
      ensures header[..] == old(header[..])
    {
      ClearSlots(footer, sdrType);
    }

    /** `add_shader_header_angle`. */
    method AddHeader(sdrType: uint32, s: Option<string>)
      requires Valid()
      requires s.Some? ==> IsCString(s.value)
      modifies header
      ensures Valid()
      ensures header[..] == AppendedTable(old(header[..]), sdrType, s)
      ensures footer[..] == old(footer[..])
    {
      AppendSlots(header, sdrType, s);
    }

    /** `add_shader_footer_angle`. */
    method AddFooter(sdrType: uint32, s: Option<string>)
      requires Valid()
      requires s.Some? ==> IsCString(s.value)
      modifies footer
      ensures Valid()
      ensures footer[..] == AppendedTable(old(footer[..]), sdrType, s)
      ensures header[..] == old(header[..])
    {
      AppendSlots(footer, sdrType, s);
    }

    /** `get_shader_header_angle`: the current text of the slot the type selects. */
    method GetHeader(sdrType: uint32) returns (text: Option<string>)
      requires Valid()
      ensures text == header[ShaderTypeIndex(sdrType)].text
      ensures text.Some? ==> text.value != [] && text.value[|text.value| - 1] == '\n'
    {
      var idx := ShaderTypeIndex(sdrType);
      text := header[idx].text;
    }

    /** `get_shader_footer_angle`: the current text of the slot the type selects. */
    method GetFooter(sdrType: uint32) returns (text: Option<string>)
      requires Valid()
      ensures text == footer[ShaderTypeIndex(sdrType)].text
      ensures text.Some? ==> text.value != [] && text.value[|text.value| - 1] == '\n'
    {
      var idx := ShaderTypeIndex(sdrType);
      text := footer[idx].text;
    }

    /**
     * The source strings `create_shader_angle` hands to the compiler: the
     * header if there is one, then `src`, then the footer if there is one.
     */
    method ShaderSources(src: Option<string>, sdrType: uint32) returns (srcs: seq<Option<string>>)
      requires Valid()
      ensures 1 <= |srcs| <= 3
      ensures var h := header[ShaderTypeIndex(sdrType)].text;
              var f := footer[ShaderTypeIndex(sdrType)].text;
              srcs == (if h.Some? then [h] else []) + [src] + (if f.Some? then [f] else [])
      ensures var pos := if header[ShaderTypeIndex(sdrType)].text.Some? then 1 else 0;
              srcs[pos] == src && forall i :: 0 <= i < |srcs| && i != pos ==> srcs[i].Some?
    {
      var srcStr := new Option<string>[3](_ => None);
      var count := 0;
      var h := GetHeader(sdrType);
      if h.Some? {
        srcStr[count] := h;
        count := count + 1;
      }
      srcStr[count] := src;
      count := count + 1;
      var f := GetFooter(sdrType);
      if f.Some? {
        srcStr[count] := f;
        count := count + 1;
      }
      srcs := srcStr[..count];
    }
  }
}
