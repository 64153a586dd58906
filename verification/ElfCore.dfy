/** fs/binfmt_elf.c, elf_core_dump: a first pass lays the file out and writes the headers that describe it, a second
    pass writes the notes and the pages; the two have to agree. */
module ElfCore {
  import opened Arithmetic

  /** struct memelfnote: the length of its name and the size of its data. */
  datatype Note = Note(nameLen: nat, datasz: nat)

  datatype Vma = Vma(start: nat, end: nat, read: bool, io: bool, write: bool, growsUp: bool, growsDown: bool)

  /** What get_user_pages finds at an address. */
  datatype Page = Missing | ZeroPage | Present

  /** The fields of a program header that say where its contents are. */
  datatype Phdr = Phdr(offset: nat, vaddr: nat, filesz: nat, memsz: nat)

  /** What is written to the file, and where: the ELF header, a program header, the three parts of a note, a page. */
  datatype What =
    | Ehdr | HeaderOf(h: Phdr) | NoteHead(n: Note) | NoteName(n: Note) | NoteData(n: Note) | PageAt(addr: nat)

  datatype Piece = Piece(what: What, pos: nat, len: nat)

  /** The sizes of the ELF header, a program header, a note header, a page, and ELF_EXEC_PAGESIZE. */
  datatype Sizes = Sizes(ehdr: nat, phdr: nat, nhdr: nat, page: nat, execPage: nat)

  predicate SizesOk(z: Sizes) {
    z.ehdr % 4 == 0 && z.phdr % 4 == 0 && z.nhdr % 4 == 0 && z.page > 0 && z.execPage > 0
  }

  predicate Aligned(pos: nat) {
    pos % 4 == 0
  }

  function Roundup(x: nat, y: nat): nat
    requires y > 0
  {
    (x + (y - 1)) / y * y
  }

  /** It is the first multiple of y from x on. */
  lemma RoundupUp(x: nat, y: nat)
    requires y > 0
    ensures x <= Roundup(x, y) < x + y && Roundup(x, y) % y == 0
  {
    var q := (x + (y - 1)) / y;
    assert x + (y - 1) == q * y + (x + (y - 1)) % y;
    DivModUnique(q * y, y, q, 0);
  }

  function NoteSize(z: Sizes, n: Note): nat {
    z.nhdr + Roundup(n.nameLen + 1, 4) + Roundup(n.datasz, 4)
  }

  function NotesSize(z: Sizes, notes: seq<Note>): nat {
    if notes == [] then 0 else NotesSize(z, notes[..|notes| - 1]) + NoteSize(z, notes[|notes| - 1])
  }

  function AllNotes(lists: seq<seq<Note>>): seq<Note> {
    if lists == [] then [] else AllNotes(lists[..|lists| - 1]) + lists[|lists| - 1]
  }

  lemma {:induction false} NotesSizeConcat(z: Sizes, a: seq<Note>, b: seq<Note>)
    ensures NotesSize(z, a + b) == NotesSize(z, a) + NotesSize(z, b)
    decreases b
  {
    if b == [] {
      assert a + b == a;
    } else {
      assert (a + b)[..|a + b| - 1] == a + b[..|b| - 1];
      NotesSizeConcat(z, a, b[..|b| - 1]);
    }
  }

  /** Where a note's parts go: its header, its name, and from the next multiple of four its data. */
  function NotePieces(z: Sizes, n: Note, at: nat): seq<Piece> {
    [Piece(NoteHead(n), at, z.nhdr), Piece(NoteName(n), at + z.nhdr, n.nameLen + 1),
     Piece(NoteData(n), at + z.nhdr + Roundup(n.nameLen + 1, 4), n.datasz)]
  }

  function NotesPieces(z: Sizes, notes: seq<Note>, at: nat): seq<Piece> {
    if notes == [] then []
    else
      var m := notes[..|notes| - 1];
      NotesPieces(z, m, at) + NotePieces(z, notes[|notes| - 1], at + NotesSize(z, m))
  }

  lemma {:induction false} NotesPiecesConcat(z: Sizes, a: seq<Note>, b: seq<Note>, at: nat)
    ensures NotesPieces(z, a + b, at) == NotesPieces(z, a, at) + NotesPieces(z, b, at + NotesSize(z, a))
    decreases b
  {
    hide NotePieces;
    if b == [] {
      assert a + b == a;
    } else {
      var m := b[..|b| - 1];
      assert (a + b)[..|a + b| - 1] == a + m;
      NotesPiecesConcat(z, a, m, at);
      NotesSizeConcat(z, a, m);
    }
  }

  /** The program headers, one after the other. */
  function HeaderPieces(z: Sizes, phdrs: seq<Phdr>, at: nat): seq<Piece> {
    if phdrs == [] then []
    else
      var n := |phdrs| - 1; HeaderPieces(z, phdrs[..n], at) + [Piece(HeaderOf(phdrs[n]), at + n * z.phdr, z.phdr)]
  }

  /** maydump. */
  predicate MayDump(v: Vma) {
    if !v.read then false
    else if v.io then false
    else if v.write || v.growsUp || v.growsDown then true
    else false
  }

  predicate VmaOk(z: Sizes, v: Vma)
    requires z.page > 0
  {
    v.start <= v.end && (v.end - v.start) % z.page == 0
  }

  /** The pages of v from address addr on, placed as a program header with the given offset says. */
  function PagesFrom(z: Sizes, v: Vma, kind: nat -> Page, offset: nat, addr: nat): seq<Piece>
    requires z.page > 0 && v.start <= addr
    decreases v.end - addr
  {
    if addr >= v.end then []
    else
      (if kind(addr) == Present then [Piece(PageAt(addr), offset + (addr - v.start), z.page)] else [])
      + PagesFrom(z, v, kind, offset, addr + z.page)
  }

  /** The bytes an area has in the file, and its pages. */
  function AreaSize(v: Vma): nat {
    if MayDump(v) && v.start <= v.end then v.end - v.start else 0
  }

  function AreaPages(z: Sizes, v: Vma, kind: nat -> Page, offset: nat): seq<Piece>
    requires z.page > 0
  {
    if MayDump(v) then PagesFrom(z, v, kind, offset, v.start) else []
  }

  /** The pages of all areas, placed as their program headers say. */
  function AllPages(z: Sizes, vmas: seq<Vma>, kind: nat -> Page, phdrs: seq<Phdr>): seq<Piece>
    requires z.page > 0 && |phdrs| == |vmas|
  {
    if vmas == [] then []
    else
      var n := |vmas| - 1;
      AllPages(z, vmas[..n], kind, phdrs[..n])
      + AreaPages(z, vmas[n], kind, phdrs[n].offset)
  }

  lemma RoundupFrom(pos: nat, x: nat)
    requires Aligned(pos)
    ensures Roundup(pos + x, 4) == pos + Roundup(x, 4) && Roundup(x, 4) % 4 == 0 && Roundup(x, 4) >= x
  {
  }

  /** Where the contents of header i begin, or, after the last, the end of the file. */
  function Begin(phdrs: seq<Phdr>, i: nat, end: nat): nat {
    if i < |phdrs| then phdrs[i].offset else end
  }

  /** The headers describe vmas and stretches of the file that follow each other from base to end. */
  predicate LaidOut(phdrs: seq<Phdr>, vmas: seq<Vma>, base: nat, end: nat) {
    && |phdrs| == |vmas| && Begin(phdrs, 0, end) == base
    && (forall i | 0 <= i < |phdrs| :: phdrs[i].offset + phdrs[i].filesz == Begin(phdrs, i + 1, end))
    && (forall i | 0 <= i < |phdrs| :: vmas[i].start <= vmas[i].end &&
          phdrs[i] == Phdr(phdrs[i].offset, vmas[i].start, if MayDump(vmas[i]) then vmas[i].end - vmas[i].start else 0,
                           vmas[i].end - vmas[i].start))
  }

  /** The bytes of all dumped areas. */
  function DumpedSize(vmas: seq<Vma>): nat {
    if vmas == [] then 0
    else
      DumpedSize(vmas[..|vmas| - 1]) + AreaSize(vmas[|vmas| - 1])
  }

  /** The file being dumped to. fails says which of its operations fail. */
  class CoreDump {
    const z: Sizes
    const fails: nat -> bool
    const limit: nat
    var pos: nat
    var size: nat
    var ops: nat
    var written: seq<Piece>

    constructor (z: Sizes, fails: nat -> bool, limit: nat)
      ensures this.z == z && this.fails == fails && this.limit == limit && pos == 0 && size == 0 && written == []
    {
      this.z, this.fails, this.limit := z, fails, limit;
      pos, size, ops, written := 0, 0, 0, [];
    }

    /** No operation on the file fails. */
    ghost predicate Healthy() {
      forall k :: !fails(k)
    }

    /** dump_write. */
    method Write(what: What, nr: nat) returns (ok: bool)
      modifies this`pos, this`ops, this`written
      ensures ok ==> pos == old(pos) + nr && written == old(written) + [Piece(what, old(pos), nr)]
      ensures Healthy() ==> ok
    {
      ok := !fails(ops);
      ops := ops + 1;
      if ok {
        written := written + [Piece(what, pos, nr)];
        pos := pos + nr;
      }
    }

    /** DUMP_WRITE in elf_core_dump, which keeps to the limit. */
    method CountedWrite(what: What, nr: nat) returns (ok: bool)
      modifies this`pos, this`ops, this`size, this`written
      ensures ok ==> pos == old(pos) + nr && written == old(written) + [Piece(what, old(pos), nr)]
      ensures size == old(size) + nr && (Healthy() && size <= limit ==> ok)
    {
      size := size + nr;
      if size > limit {
        return false;
      }
      ok := Write(what, nr);
    }

    /** dump_seek. */
    method Seek(off: nat) returns (ok: bool)
      modifies this`pos, this`ops
      ensures ok ==> pos == off
      ensures Healthy() ==> ok
    {
      ok := !fails(ops);
      ops := ops + 1;
      if ok {
        pos := off;
      }
    }

    /** writenote: it moves the file on by what notesize says, from a position that is a multiple of four, and writes
        the name after the header and the data after the name. */
    method WriteNote(n: Note) returns (ok: bool)
      requires SizesOk(z) && Aligned(pos)
      modifies this`pos, this`ops, this`written
      ensures ok ==> pos == old(pos) + NoteSize(z, n) && Aligned(pos)
      ensures ok ==> written == old(written) + NotePieces(z, n, old(pos))
      ensures Healthy() ==> ok
    {
      ghost var at := pos;
      NotePositions(z, n, at);
      hide Roundup, NoteSize, SizesOk, Aligned, Healthy;
      ok := Write(NoteHead(n), z.nhdr);
      if !ok { return; }
      ok := Write(NoteName(n), n.nameLen + 1);
      if !ok { return; }
      ok := Seek(Roundup(pos, 4));
      if !ok { return; }
      ok := Write(NoteData(n), n.datasz);
      if !ok { return; }
      ok := Seek(Roundup(pos, 4));
      ThreeMore(old(written), Piece(NoteHead(n), at, z.nhdr), Piece(NoteName(n), at + z.nhdr, n.nameLen + 1),
                Piece(NoteData(n), at + z.nhdr + Roundup(n.nameLen + 1, 4), n.datasz));
    }

    method WriteNotes(notes: seq<Note>) returns (ok: bool)
      requires SizesOk(z) && Aligned(pos)
      modifies this`pos, this`ops, this`written
      ensures ok ==> pos == old(pos) + NotesSize(z, notes) && Aligned(pos)
      ensures ok ==> written == old(written) + NotesPieces(z, notes, old(pos))
      ensures Healthy() ==> ok
    {
      hide NoteSize, NotePieces, Aligned, Healthy;
      ok := true;
      ghost var start, before := pos, written;
      assert notes[..|notes|] == notes;
      assert before + [] == before;
      for i := 0 to |notes|
        invariant ok && pos == start + NotesSize(z, notes[..i]) && Aligned(pos)
        invariant written == before + NotesPieces(z, notes[..i], start)
      {
        assert notes[..i + 1][..i] == notes[..i];
        ok := WriteNote(notes[i]);
        if !ok { return; }
      }
    }

    /** The notes of the other threads. */
    method WriteThreadNotes(threads: seq<seq<Note>>) returns (ok: bool)
      requires SizesOk(z) && Aligned(pos)
      modifies this`pos, this`ops, this`written
      ensures ok ==> pos == old(pos) + NotesSize(z, AllNotes(threads))
      ensures ok ==> written == old(written) + NotesPieces(z, AllNotes(threads), old(pos))
      ensures Healthy() ==> ok
    {
      hide NoteSize, NotesSize, NotesPieces, Aligned, Healthy;
      ok := true;
      ghost var start, before := pos, written;
      assert threads[..|threads|] == threads;
      NoNotes(z, start);
      assert threads[..0] == [] && before + [] == before;
      for i := 0 to |threads|
        invariant ok && pos == start + NotesSize(z, AllNotes(threads[..i])) && Aligned(pos)
        invariant written == before + NotesPieces(z, AllNotes(threads[..i]), start)
      {
        assert threads[..i + 1][..i] == threads[..i];
        NotesSizeConcat(z, AllNotes(threads[..i]), threads[i]);
        NotesPiecesConcat(z, AllNotes(threads[..i]), threads[i], start);
        ok := WriteNotes(threads[i]);
        if !ok { return; }
      }
    }

    /** The program headers of the areas, and the offset after the last. */
    method WritePhdrs(vmas: seq<Vma>, base: nat) returns (ok: bool, phdrs: seq<Phdr>, offset: nat)
      requires z.page > 0 && forall i | 0 <= i < |vmas| :: VmaOk(z, vmas[i])
      modifies this`pos, this`ops, this`size, this`written
      ensures ok ==> LaidOut(phdrs, vmas, base, offset)
      ensures ok ==> pos == old(pos) + |vmas| * z.phdr && written == old(written) + HeaderPieces(z, phdrs, old(pos))
      ensures ok ==> size == old(size) + |vmas| * z.phdr
      ensures Healthy() && old(size) + |vmas| * z.phdr <= limit ==> ok
    {
      hide LaidOut, VmaOk;
      ok, phdrs, offset := true, [], base;
      NothingLaidOut(base);
      ghost var start, size0, before := pos, size, written;
      assert vmas[..0] == [] && vmas[..|vmas|] == vmas && before + [] == before;
      for i := 0 to |vmas|
        invariant ok && LaidOut(phdrs, vmas[..i], base, offset) && pos == start + i * z.phdr && |phdrs| == i
        invariant size == size0 + i * z.phdr && written == before + HeaderPieces(z, phdrs, start)
      {
        VmaOrdered(z, vmas[i]);
        var sz := vmas[i].end - vmas[i].start;
        var h := Phdr(offset, vmas[i].start, if MayDump(vmas[i]) then sz else 0, sz);
        LaidOutMore(phdrs, vmas[..i], base, offset, h, vmas[i]);
        assert vmas[..i + 1] == vmas[..i] + [vmas[i]] && (phdrs + [h])[..i] == phdrs;
        phdrs := phdrs + [h];
        offset := offset + h.filesz;
        OneHeaderMore(i, |vmas|, z.phdr);
        ok := CountedWrite(HeaderOf(h), z.phdr);
        if !ok { return; }
      }
    }

    /** The loop over the pages of an area: a page that is not there, or is the zero page, is skipped by seeking. */
    method WritePages(v: Vma, kind: nat -> Page, ghost offset: nat) returns (ok: bool)
      requires SizesOk(z) && VmaOk(z, v) && pos == offset
      modifies this`pos, this`ops, this`size, this`written
      ensures ok ==> pos == offset + (v.end - v.start)
      ensures ok ==> written == old(written) + PagesFrom(z, v, kind, offset, v.start)
      ensures ok ==> size <= old(size) + (v.end - v.start)
      ensures Healthy() && old(size) + (v.end - v.start) <= limit ==> ok
    {
      ok := true;
      ghost var size0 := size;
      var addr := v.start;
      ghost var expected := PagesFrom(z, v, kind, offset, v.start);
      assert written + expected == old(written) + expected;
      while addr < v.end
        invariant ok && v.start <= addr <= v.end && (v.end - addr) % z.page == 0 && pos == offset + (addr - v.start)
        invariant written + PagesFrom(z, v, kind, offset, addr) == old(written) + expected
        invariant size <= size0 + (addr - v.start)
      {
        PageFits(v.end - addr, z.page);
        ghost var rest, was := PagesFrom(z, v, kind, offset, addr + z.page), written;
        if kind(addr) != Present {
          ok := Seek(pos + z.page);
          if !ok { return; }
          assert [] + rest == rest;
        } else {
          size := size + z.page;
          if size > limit {
            return false;
          }
          ghost var piece := Piece(PageAt(addr), pos, z.page);
          ok := Write(PageAt(addr), z.page);
          if !ok { return; }
          assert was + ([piece] + rest) == (was + [piece]) + rest;
        }
        addr := addr + z.page;
      }
      assert written + [] == written;
    }

    /** One turn of the loop over the areas, and the loop. */
    method WriteArea(v: Vma, kind: nat -> Page, ghost offset: nat) returns (ok: bool)
      requires SizesOk(z) && VmaOk(z, v) && pos == offset
      modifies this`pos, this`ops, this`size, this`written
      ensures ok ==> pos == offset + AreaSize(v) && written == old(written) + AreaPages(z, v, kind, offset)
      ensures ok ==> size <= old(size) + AreaSize(v)
      ensures Healthy() && old(size) + AreaSize(v) <= limit ==> ok
    {
      hide PagesFrom;
      ok := true;
      if MayDump(v) {
        ok := WritePages(v, kind, offset);
      } else {
        assert written + [] == written;
      }
    }

    method WriteAreas(vmas: seq<Vma>, kind: nat -> Page, ghost phdrs: seq<Phdr>, ghost base: nat, ghost end: nat)
      returns (ok: bool)
      requires SizesOk(z) && (forall i | 0 <= i < |vmas| :: VmaOk(z, vmas[i]))
      requires LaidOut(phdrs, vmas, base, end) && pos == base
      modifies this`pos, this`ops, this`size, this`written
      ensures ok ==> pos == end && written == old(written) + AllPages(z, vmas, kind, phdrs)
      ensures Healthy() && old(size) + DumpedSize(vmas) <= limit ==> ok
    {
      AreasFrom(phdrs, vmas, base, end);
      hide AreaPages, AreaSize, DumpedSize, LaidOut, AllPages, VmaOk, Healthy;
      ok := true;
      ghost var size0, before := size, written;
      assert vmas[..0] == [] && phdrs[..0] == [] && before + [] == before;
      NothingDumped(z, kind);
      for i := 0 to |vmas|
        invariant ok && pos == Begin(phdrs, i, end) && written == before + AllPages(z, vmas[..i], kind, phdrs[..i])
        invariant size <= size0 + DumpedSize(vmas[..i])
      {
        DumpedMore(vmas, i);
        AreaAt(phdrs, vmas, base, end, i);
        AllPagesMore(z, vmas, kind, phdrs, i);
        ok := WriteArea(vmas[i], kind, phdrs[i].offset);
        if !ok { return; }
        Regroup(before, AllPages(z, vmas[..i], kind, phdrs[..i]), AreaPages(z, vmas[i], kind, phdrs[i].offset));
      }
      assert vmas[..|vmas|] == vmas && phdrs[..|vmas|] == phdrs;
    }

    /** elf_core_dump from the first write on. If it runs to its end, the position is the offset the layout came to, so
        the check at the end finds nothing wrong; the file holds the headers, the notes and the pages and nothing else,
        each after the one before; the note segment is where and as long as its header says and ends before the areas,
        whose headers lay them out one after the other up to the end of the file. An area has contents if and only if it
        may be read, is not a device, and can be written or grows; and exactly the pages present in such areas have been
        written, each at the place its area's header gives it. */
    method Dump(notes: seq<Note>, threads: seq<seq<Note>>, vmas: seq<Vma>, kind: nat -> Page)
      returns (done: bool, wrongPos: bool, notePhdr: Phdr, phdrs: seq<Phdr>, noteStart: nat, noteEnd: nat, dataoff: nat)
      requires SizesOk(z) && pos == 0 && written == [] && forall i | 0 <= i < |vmas| :: VmaOk(z, vmas[i])
      modifies this
      ensures done ==> !wrongPos
      ensures Healthy() && old(size) + z.ehdr + (|vmas| + 1) * z.phdr + DumpedSize(vmas) <= limit ==> done
      ensures done ==> noteStart <= noteEnd && notePhdr == Phdr(noteStart, 0, noteEnd - noteStart, 0)
      ensures done ==> noteEnd <= dataoff && LaidOut(phdrs, vmas, dataoff, pos) && |phdrs| == |vmas|
      ensures done ==> written == [Piece(Ehdr, 0, z.ehdr), Piece(HeaderOf(notePhdr), z.ehdr, z.phdr)]
                                + HeaderPieces(z, phdrs, z.ehdr + z.phdr)
                                + NotesPieces(z, notes + AllNotes(threads), noteStart)
                                + AllPages(z, vmas, kind, phdrs)
      ensures done ==> InOrder(written, 0, pos)
      ensures done ==> forall i | 0 <= i < |vmas| ::
                phdrs[i].filesz == if vmas[i].read && !vmas[i].io
                                      && (vmas[i].write || vmas[i].growsUp || vmas[i].growsDown)
                                   then vmas[i].end - vmas[i].start else 0
      ensures done ==> forall addr: nat, p: nat, len: nat ::
                Piece(PageAt(addr), p, len) in written <==>
                  len == z.page && kind(addr) == Present && exists i | 0 <= i < |vmas| ::
                    && vmas[i].read && !vmas[i].io && (vmas[i].write || vmas[i].growsUp || vmas[i].growsDown)
                    && vmas[i].start <= addr < vmas[i].end && (addr - vmas[i].start) % z.page == 0
                    && p == phdrs[i].offset + (addr - vmas[i].start)
    {
      hide NotesSize, NoteSize, AllNotes, Roundup, AllPages, DumpedSize, Healthy, Aligned, LaidOut, NotesPieces,
           HeaderPieces;
      done, wrongPos, notePhdr, phdrs, noteStart, noteEnd, dataoff := false, false, Phdr(0, 0, 0, 0), [], 0, 0, 0;
      var threadStatusSize := ThreadsSize(z, threads);
      var sz := SumSizes(z, notes);
      var ok, offset;
      ok, notePhdr, phdrs, dataoff, offset := WriteHeaders(vmas, sz + threadStatusSize);
      if !ok { return; }
      noteStart := pos;
      ok := WriteNotes(notes);
      if !ok { return; }
      ok := WriteThreadNotes(threads);
      if !ok { return; }
      noteEnd := pos;
      ok := Seek(dataoff);
      if !ok { return; }
      ok := WriteAreas(vmas, kind, phdrs, dataoff, offset);
      if !ok { return; }
      wrongPos := pos != offset;
      done := true;
      LaidOutSizes(phdrs, vmas, dataoff, offset);
      NotesPiecesConcat(z, notes, AllNotes(threads), noteStart);
      NotesSizeConcat(z, notes, AllNotes(threads));
      var head := [Piece(Ehdr, 0, z.ehdr), Piece(HeaderOf(notePhdr), z.ehdr, z.phdr)];
      assert written == head + HeaderPieces(z, phdrs, z.ehdr + z.phdr)
                      + NotesPieces(z, notes + AllNotes(threads), noteStart) + AllPages(z, vmas, kind, phdrs);
      FileInOrder(z, notePhdr, phdrs, notes + AllNotes(threads), vmas, kind, noteStart, dataoff, pos);
      forall addr: nat, p: nat, len: nat
        ensures Piece(PageAt(addr), p, len) in written <==> Dumped(z, vmas, kind, phdrs, addr, p, len)
      {
        NoteOrPage(z, notes + AllNotes(threads), noteStart, Piece(PageAt(addr), p, len));
        HeaderOrPage(z, phdrs, z.ehdr + z.phdr, Piece(PageAt(addr), p, len));
        AllPagesAre(z, vmas, kind, phdrs, addr, p, len);
      }
    }

    /** The first pass: the ELF header, the header of the note segment, and those of the areas. */
    method WriteHeaders(vmas: seq<Vma>, sz: nat)
      returns (ok: bool, notePhdr: Phdr, phdrs: seq<Phdr>, dataoff: nat, offset: nat)
      requires SizesOk(z) && pos == 0 && written == [] && forall i | 0 <= i < |vmas| :: VmaOk(z, vmas[i])
      modifies this`pos, this`ops, this`size, this`written
      ensures ok ==> notePhdr == Phdr(pos, 0, sz, 0) && Aligned(pos) && pos + sz <= dataoff
      ensures ok ==> pos == z.ehdr + (|vmas| + 1) * z.phdr
      ensures ok ==> LaidOut(phdrs, vmas, dataoff, offset)
      ensures ok ==> written == [Piece(Ehdr, 0, z.ehdr), Piece(HeaderOf(notePhdr), z.ehdr, z.phdr)]
                              + HeaderPieces(z, phdrs, z.ehdr + z.phdr)
      ensures ok ==> size == old(size) + z.ehdr + (|vmas| + 1) * z.phdr
      ensures Healthy() && old(size) + z.ehdr + (|vmas| + 1) * z.phdr <= limit ==> ok
    {
      hide Roundup, Healthy, Aligned, LaidOut, VmaOk, HeaderPieces;
      ok, notePhdr, phdrs, dataoff, offset := false, Phdr(0, 0, 0, 0), [], 0, 0;
      var segs := |vmas|;
      HeadersAligned(z, segs);
      ok := CountedWrite(Ehdr, z.ehdr);
      if !ok { return; }
      offset := z.ehdr + (segs + 1) * z.phdr;
      notePhdr := Phdr(offset, 0, sz, 0);
      offset := offset + sz;
      ok := CountedWrite(HeaderOf(notePhdr), z.phdr);
      if !ok { return; }
      RoundupUp(offset, z.execPage);
      offset := Roundup(offset, z.execPage);
      dataoff := offset;
      ok, phdrs, offset := WritePhdrs(vmas, dataoff);
    }
  }

  lemma LaidOutSizes(phdrs: seq<Phdr>, vmas: seq<Vma>, base: nat, end: nat)
    requires LaidOut(phdrs, vmas, base, end)
    ensures |phdrs| == |vmas|
    ensures forall i | 0 <= i < |vmas| ::
              phdrs[i].filesz == if vmas[i].read && !vmas[i].io
                                    && (vmas[i].write || vmas[i].growsUp || vmas[i].growsDown)
                                 then vmas[i].end - vmas[i].start else 0
  {
  }

  // ---- nothing is written over

  /** The pieces lie between lo and hi, each after the one before. */
  predicate InOrder(s: seq<Piece>, lo: nat, hi: nat) {
    && lo <= hi
    && (forall i | 0 <= i < |s| :: lo <= s[i].pos && s[i].pos + s[i].len <= hi)
    && (forall i, j | 0 <= i < j < |s| :: s[i].pos + s[i].len <= s[j].pos)
  }

  lemma OneAfterOther(a: seq<Piece>, b: seq<Piece>, lo: nat, mid: nat, hi: nat)
    requires InOrder(a, lo, mid) && InOrder(b, mid, hi)
    ensures InOrder(a + b, lo, hi)
  {
  }

  lemma Wider(a: seq<Piece>, lo: nat, mid: nat, hi: nat)
    requires InOrder(a, lo, mid) && mid <= hi
    ensures InOrder(a, lo, hi)
  {
  }

  lemma {:induction false} HeadersInOrder(z: Sizes, phdrs: seq<Phdr>, at: nat)
    ensures InOrder(HeaderPieces(z, phdrs, at), at, at + |phdrs| * z.phdr)
    decreases phdrs
  {
    if phdrs != [] {
      var n := |phdrs| - 1;
      HeadersInOrder(z, phdrs[..n], at);
      var last := [Piece(HeaderOf(phdrs[n]), at + n * z.phdr, z.phdr)];
      assert at + n * z.phdr + z.phdr == at + |phdrs| * z.phdr;
      OneAfterOther(HeaderPieces(z, phdrs[..n], at), last, at, at + n * z.phdr, at + |phdrs| * z.phdr);
    }
  }

  lemma NoteInOrder(z: Sizes, n: Note, at: nat)
    ensures InOrder(NotePieces(z, n, at), at, at + NoteSize(z, n))
  {
    RoundupUp(n.nameLen + 1, 4);
    RoundupUp(n.datasz, 4);
    hide Roundup;
  }

  lemma {:induction false} NotesInOrder(z: Sizes, notes: seq<Note>, at: nat)
    ensures InOrder(NotesPieces(z, notes, at), at, at + NotesSize(z, notes))
    decreases notes
  {
    hide InOrder, NotePieces, NoteSize;
    if notes == [] {
      Nothing(at, at);
    } else {
      var m, n := notes[..|notes| - 1], notes[|notes| - 1];
      NotesInOrder(z, m, at);
      NoteInOrder(z, n, at + NotesSize(z, m));
      OneAfterOther(NotesPieces(z, m, at), NotePieces(z, n, at + NotesSize(z, m)), at, at + NotesSize(z, m),
                    at + NotesSize(z, notes));
    }
  }

  lemma OnePiece(x: Piece)
    ensures InOrder([x], x.pos, x.pos + x.len)
  {
  }

  lemma Nothing(lo: nat, hi: nat)
    requires lo <= hi
    ensures InOrder([], lo, hi)
  {
  }

  lemma {:induction false} PagesInOrder(z: Sizes, v: Vma, kind: nat -> Page, offset: nat, from: nat)
    requires z.page > 0 && v.start <= from <= v.end && (v.end - from) % z.page == 0
    ensures InOrder(PagesFrom(z, v, kind, offset, from), offset + (from - v.start), offset + (v.end - v.start))
    decreases v.end - from
  {
    hide InOrder;
    var at := offset + (from - v.start);
    if from >= v.end {
      Nothing(at, offset + (v.end - v.start));
    } else {
      PageFits(v.end - from, z.page);
      PagesInOrder(z, v, kind, offset, from + z.page);
      Nothing(at, at + z.page);
      OnePiece(Piece(PageAt(from), at, z.page));
      OneAfterOther(if kind(from) == Present then [Piece(PageAt(from), at, z.page)] else [],
                    PagesFrom(z, v, kind, offset, from + z.page), at, at + z.page, offset + (v.end - v.start));
    }
  }

  lemma {:induction false} AreasInOrder(z: Sizes, vmas: seq<Vma>, kind: nat -> Page, phdrs: seq<Phdr>, base: nat,
                                        end: nat, i: nat)
    requires SizesOk(z) && (forall j | 0 <= j < |vmas| :: VmaOk(z, vmas[j]))
    requires LaidOut(phdrs, vmas, base, end) && i <= |vmas| == |phdrs|
    ensures InOrder(AllPages(z, vmas[..i], kind, phdrs[..i]), base, Begin(phdrs, i, end))
  {
    hide InOrder, PagesFrom, LaidOut, AllPages, Begin;
    AreasFrom(phdrs, vmas, base, end);
    if i == 0 {
      assert vmas[..0] == [] && phdrs[..0] == [];
      NothingDumped(z, kind);
      Nothing(base, base);
    } else {
      AreasInOrder(z, vmas, kind, phdrs, base, end, i - 1);
      AreaAt(phdrs, vmas, base, end, i - 1);
      AllPagesMore(z, vmas, kind, phdrs, i - 1);
      var v, at := vmas[i - 1], phdrs[i - 1].offset;
      if MayDump(v) {
        PagesInOrder(z, v, kind, at, v.start);
      } else {
        Nothing(at, at);
      }
      OneAfterOther(AllPages(z, vmas[..i - 1], kind, phdrs[..i - 1]), AreaPages(z, v, kind, at), base, at,
                    at + AreaSize(v));
    }
  }

  lemma HeadInOrder(z: Sizes, h: Phdr)
    ensures InOrder([Piece(Ehdr, 0, z.ehdr), Piece(HeaderOf(h), z.ehdr, z.phdr)], 0, z.ehdr + z.phdr)
  {
  }

  lemma FileInOrder(z: Sizes, notePhdr: Phdr, phdrs: seq<Phdr>, notes: seq<Note>, vmas: seq<Vma>, kind: nat -> Page,
                    noteStart: nat, dataoff: nat, end: nat)
    requires SizesOk(z) && (forall j | 0 <= j < |vmas| :: VmaOk(z, vmas[j])) && |phdrs| == |vmas|
    requires LaidOut(phdrs, vmas, dataoff, end) && noteStart == z.ehdr + (|vmas| + 1) * z.phdr
    requires noteStart + NotesSize(z, notes) <= dataoff
    ensures InOrder([Piece(Ehdr, 0, z.ehdr), Piece(HeaderOf(notePhdr), z.ehdr, z.phdr)]
                    + HeaderPieces(z, phdrs, z.ehdr + z.phdr) + NotesPieces(z, notes, noteStart)
                    + AllPages(z, vmas, kind, phdrs), 0, end)
  {
    hide InOrder, HeaderPieces, NotesPieces, NotesSize, AllPages, LaidOut, VmaOk;
    HeadInOrder(z, notePhdr);
    HeadersInOrder(z, phdrs, z.ehdr + z.phdr);
    OneHeaderMore(|vmas|, |vmas| + 1, z.phdr);
    NotesInOrder(z, notes, noteStart);
    AreasInOrder(z, vmas, kind, phdrs, dataoff, end, |vmas|);
    assert Begin(phdrs, |vmas|, end) == end;
    assert vmas[..|vmas|] == vmas && phdrs[..|vmas|] == phdrs;
    FourInOrder([Piece(Ehdr, 0, z.ehdr), Piece(HeaderOf(notePhdr), z.ehdr, z.phdr)],
                HeaderPieces(z, phdrs, z.ehdr + z.phdr), NotesPieces(z, notes, noteStart),
                AllPages(z, vmas, kind, phdrs), z.ehdr + z.phdr, noteStart, noteStart + NotesSize(z, notes), dataoff,
                end);
  }

  lemma FourInOrder(a: seq<Piece>, b: seq<Piece>, c: seq<Piece>, d: seq<Piece>, m1: nat, m2: nat, m3: nat, m4: nat,
                    hi: nat)
    requires InOrder(a, 0, m1) && InOrder(b, m1, m2) && InOrder(c, m2, m3) && m3 <= m4 && InOrder(d, m4, hi)
    ensures InOrder(a + b + c + d, 0, hi)
  {
    hide InOrder;
    OneAfterOther(a, b, 0, m1, m2);
    Wider(c, m2, m3, m4);
    OneAfterOther(a + b, c, 0, m2, m4);
    OneAfterOther(a + b + c, d, 0, m4, hi);
  }

  lemma ThreeMore<T>(s: seq<T>, a: T, b: T, c: T)
    ensures s + [a] + [b] + [c] == s + [a, b, c]
  {
  }

  lemma Regroup<T>(a: seq<T>, b: seq<T>, c: seq<T>)
    ensures (a + b) + c == a + (b + c)
  {
  }

  lemma AreasFrom(phdrs: seq<Phdr>, vmas: seq<Vma>, base: nat, end: nat)
    requires LaidOut(phdrs, vmas, base, end)
    ensures |phdrs| == |vmas| && Begin(phdrs, 0, end) == base
  {
  }

  lemma AreaAt(phdrs: seq<Phdr>, vmas: seq<Vma>, base: nat, end: nat, i: nat)
    requires LaidOut(phdrs, vmas, base, end) && i < |vmas| == |phdrs|
    ensures Begin(phdrs, i, end) == phdrs[i].offset && vmas[i].start <= vmas[i].end
    ensures Begin(phdrs, i + 1, end) == phdrs[i].offset + AreaSize(vmas[i])
  {
  }

  /** A page of an area that has contents, at its place. */
  predicate Dumped(z: Sizes, vmas: seq<Vma>, kind: nat -> Page, phdrs: seq<Phdr>, addr: nat, p: nat, len: nat)
    requires z.page > 0 && |phdrs| == |vmas|
  {
    len == z.page && kind(addr) == Present && exists i | 0 <= i < |vmas| ::
      && vmas[i].read && !vmas[i].io && (vmas[i].write || vmas[i].growsUp || vmas[i].growsDown)
      && vmas[i].start <= addr < vmas[i].end && (addr - vmas[i].start) % z.page == 0
      && p == phdrs[i].offset + (addr - vmas[i].start)
  }

  lemma {:induction false} PagesAre(z: Sizes, v: Vma, kind: nat -> Page, offset: nat, from: nat, addr: nat, p: nat,
                                    len: nat)
    requires z.page > 0 && v.start <= from
    ensures Piece(PageAt(addr), p, len) in PagesFrom(z, v, kind, offset, from) <==>
              && len == z.page && kind(addr) == Present && addr < v.end && OnBoundary(from, addr, z.page)
              && p == offset + (addr - v.start)
    decreases v.end - from
  {
    hide OnBoundary;
    NextBoundary(from, addr, z.page);
    if from < v.end {
      PagesAre(z, v, kind, offset, from + z.page, addr, p, len);
    }
  }

  predicate OnBoundary(from: nat, addr: nat, page: nat)
    requires page > 0
  {
    from <= addr && (addr - from) % page == 0
  }

  lemma NextBoundary(from: nat, addr: nat, page: nat)
    requires page > 0
    ensures OnBoundary(from, addr, page) ==> from <= addr
    ensures OnBoundary(from, addr, page) <==> addr == from || OnBoundary(from + page, addr, page)
  {
    if addr >= from + page {
      ModStep(addr - from, page);
    } else if from < addr {
      DivModUnique(addr - from, page, 0, addr - from);
    }
  }

  lemma {:induction false} AllPagesAre(z: Sizes, vmas: seq<Vma>, kind: nat -> Page, phdrs: seq<Phdr>, addr: nat, p: nat,
                                       len: nat)
    requires z.page > 0 && |phdrs| == |vmas|
    ensures Piece(PageAt(addr), p, len) in AllPages(z, vmas, kind, phdrs) <==>
              Dumped(z, vmas, kind, phdrs, addr, p, len)
    decreases vmas
  {
    hide PagesFrom;
    if vmas != [] {
      var n := |vmas| - 1;
      AllPagesAre(z, vmas[..n], kind, phdrs[..n], addr, p, len);
      PagesAre(z, vmas[n], kind, phdrs[n].offset, vmas[n].start, addr, p, len);
    }
  }

  lemma {:induction false} NoteOrPage(z: Sizes, notes: seq<Note>, at: nat, x: Piece)
    requires x.what.PageAt?
    ensures x !in NotesPieces(z, notes, at)
    decreases notes
  {
    hide Roundup;
    if notes != [] {
      NoteOrPage(z, notes[..|notes| - 1], at, x);
    }
  }

  lemma {:induction false} HeaderOrPage(z: Sizes, phdrs: seq<Phdr>, at: nat, x: Piece)
    requires x.what.PageAt?
    ensures x !in HeaderPieces(z, phdrs, at)
    decreases phdrs
  {
    if phdrs != [] {
      HeaderOrPage(z, phdrs[..|phdrs| - 1], at, x);
    }
  }

  /** The positions writenote goes through. */
  lemma NotePositions(z: Sizes, n: Note, pos: nat)
    requires SizesOk(z) && Aligned(pos)
    ensures Roundup(pos + z.nhdr + (n.nameLen + 1), 4) == pos + z.nhdr + Roundup(n.nameLen + 1, 4)
    ensures Roundup(pos + z.nhdr + Roundup(n.nameLen + 1, 4) + n.datasz, 4) == pos + NoteSize(z, n)
    ensures Aligned(pos + NoteSize(z, n))
  {
    var p := pos + z.nhdr;
    RoundupFrom(p, n.nameLen + 1);
    RoundupFrom(p + Roundup(n.nameLen + 1, 4), n.datasz);
    hide Roundup;
  }

  lemma NoNotes(z: Sizes, at: nat)
    ensures NotesSize(z, []) == 0 && AllNotes([]) == [] && NotesPieces(z, [], at) == []
  {
  }

  /** The sums the first pass takes. */
  method SumSizes(z: Sizes, notes: seq<Note>) returns (sz: nat)
    ensures sz == NotesSize(z, notes)
  {
    hide NoteSize;
    sz := 0;
    for i := 0 to |notes|
      invariant sz == NotesSize(z, notes[..i])
    {
      assert notes[..i + 1][..i] == notes[..i];
      sz := sz + NoteSize(z, notes[i]);
    }
    assert notes[..|notes|] == notes;
  }

  method ThreadsSize(z: Sizes, threads: seq<seq<Note>>) returns (sz: nat)
    ensures sz == NotesSize(z, AllNotes(threads))
  {
    hide NotesSize;
    sz := 0;
    NoNotes(z, 0);
    assert threads[..0] == [];
    for i := 0 to |threads|
      invariant sz == NotesSize(z, AllNotes(threads[..i]))
    {
      assert threads[..i + 1][..i] == threads[..i];
      NotesSizeConcat(z, AllNotes(threads[..i]), threads[i]);
      var one := SumSizes(z, threads[i]);
      sz := sz + one;
    }
    assert threads[..|threads|] == threads;
  }

  lemma HeadersAligned(z: Sizes, segs: nat)
    requires SizesOk(z)
    ensures z.ehdr + z.phdr + segs * z.phdr == z.ehdr + (segs + 1) * z.phdr
    ensures Aligned(z.ehdr + (segs + 1) * z.phdr)
  {
    var p := z.phdr / 4;
    assert (segs + 1) * z.phdr == 4 * ((segs + 1) * p);
  }

  lemma PageFits(left: nat, page: nat)
    requires page > 0 && left > 0 && left % page == 0
    ensures left >= page && (left - page) % page == 0
  {
    if left < page {
      DivModUnique(left, page, 0, left);
    } else {
      ModStep(left, page);
    }
  }

  lemma NothingLaidOut(base: nat)
    ensures LaidOut([], [], base, base)
  {
  }

  lemma VmaOrdered(z: Sizes, v: Vma)
    requires z.page > 0 && VmaOk(z, v)
    ensures v.start <= v.end
  {
  }

  lemma OneHeaderMore(i: nat, n: nat, size: nat)
    requires i < n
    ensures (i + 1) * size == i * size + size <= n * size
  {
    assert n * size == (i + 1) * size + (n - i - 1) * size;
  }

  lemma NothingDumped(z: Sizes, kind: nat -> Page)
    requires z.page > 0
    ensures DumpedSize([]) == 0 && AllPages(z, [], kind, []) == []
  {
  }

  lemma AllPagesMore(z: Sizes, vmas: seq<Vma>, kind: nat -> Page, phdrs: seq<Phdr>, i: nat)
    requires z.page > 0 && i < |vmas| == |phdrs|
    ensures AllPages(z, vmas[..i + 1], kind, phdrs[..i + 1])
         == AllPages(z, vmas[..i], kind, phdrs[..i])
            + AreaPages(z, vmas[i], kind, phdrs[i].offset)
  {
    hide PagesFrom;
    assert vmas[..i + 1][..i] == vmas[..i] && phdrs[..i + 1][..i] == phdrs[..i];
  }

  lemma {:induction false} DumpedMore(vmas: seq<Vma>, i: nat)
    requires i < |vmas|
    ensures DumpedSize(vmas[..i + 1])
         == DumpedSize(vmas[..i])
            + AreaSize(vmas[i])
    ensures DumpedSize(vmas[..i + 1]) <= DumpedSize(vmas)
    decreases |vmas| - i
  {
    assert vmas[..i + 1][..i] == vmas[..i];
    if i + 1 < |vmas| {
      DumpedMore(vmas, i + 1);
    } else {
      assert vmas[..i + 1] == vmas;
    }
  }

  lemma LaidOutMore(phdrs: seq<Phdr>, vmas: seq<Vma>, base: nat, end: nat, h: Phdr, v: Vma)
    requires LaidOut(phdrs, vmas, base, end) && v.start <= v.end
    requires h == Phdr(end, v.start, if MayDump(v) then v.end - v.start else 0, v.end - v.start)
    ensures LaidOut(phdrs + [h], vmas + [v], base, end + h.filesz)
  {
  }
}
