/** The bytes of a heap whose headers lie among the payloads: what a header store may overwrite, and
    copying from one payload to another. */
module Ram {

  type byte = bv8

  /** z lies in one of the headers hs. */
  ghost predicate InHeader(header: nat, hs: seq<int>, z: int) {
    exists i :: 0 <= i < |hs| && hs[i] <= z < hs[i] + header
  }

  /** Only bytes of these headers changed. */
  ghost predicate Keeps(header: nat, hs: seq<int>, ram: map<int, byte>, ram': map<int, byte>) {
    && ram'.Keys == ram.Keys
    && forall z :: z in ram && !InHeader(header, hs, z) ==> ram'[z] == ram[z]
  }

  lemma KeepsRefl(header: nat, hs: seq<int>, ram: map<int, byte>)
    ensures Keeps(header, hs, ram, ram)
  {
  }

  lemma KeepsKeys(header: nat, hs: seq<int>, ram: map<int, byte>, ram': map<int, byte>)
    requires Keeps(header, hs, ram, ram')
    ensures ram'.Keys == ram.Keys
  {
  }

  lemma KeepsTrans(header: nat, hs: seq<int>, ram: map<int, byte>, ram1: map<int, byte>, ram2: map<int, byte>)
    requires Keeps(header, hs, ram, ram1) && Keeps(header, hs, ram1, ram2)
    ensures Keeps(header, hs, ram, ram2) && ram2.Keys == ram.Keys
  {
  }

  /** A store into the header at y leaves what the field and its padding may hold. */
  function Scribbled(header: nat, ram: map<int, byte>, y: int, noise: int -> byte): map<int, byte> {
    map z | z in ram :: if y <= z < y + header then noise(z) else ram[z]
  }

  lemma ScribbleKeeps(header: nat, hs: seq<int>, ram: map<int, byte>, y: int, noise: int -> byte)
    requires y in hs
    ensures Keeps(header, hs, ram, Scribbled(header, ram, y, noise))
  {
  }

  ghost predicate SameByte(ram: map<int, byte>, p: int, ram': map<int, byte>, q: int, z: int) {
    p + z in ram && q + z in ram' && ram'[q + z] == ram[p + z]
  }

  /** The first n bytes at q read as the first n bytes at p did. */
  ghost predicate Copied(ram: map<int, byte>, p: int, ram': map<int, byte>, q: int, n: int) {
    forall z :: 0 <= z < n ==> SameByte(ram, p, ram', q, z)
  }

  /** rt_memcpy between two payloads. */
  method Memcpy(ram: map<int, byte>, dst: int, src: int, n: nat) returns (ram': map<int, byte>)
    requires forall z :: src <= z < src + n ==> z in ram
    requires src + n <= dst || dst + n <= src
    requires forall z :: dst <= z < dst + n ==> z in ram
    ensures ram'.Keys == ram.Keys
    ensures Copied(ram, src, ram', dst, n)
    ensures forall z :: z in ram && !(dst <= z < dst + n) ==> ram'[z] == ram[z]
  {
    ram' := ram;
    for i := 0 to n
      invariant ram'.Keys == ram.Keys
      invariant Copied(ram, src, ram', dst, i)
      invariant forall z :: z in ram && !(dst <= z < dst + i) ==> ram'[z] == ram[z]
    {
      ghost var ram1 := ram';
      ram' := ram'[dst + i := ram'[src + i]];
      forall z | 0 <= z < i + 1 ensures SameByte(ram, src, ram', dst, z) {
        if z < i { assert SameByte(ram, src, ram1, dst, z); }
      }
    }
  }

  lemma CopiedTrans(ram: map<int, byte>, p: int, ram1: map<int, byte>, q: int, ram2: map<int, byte>, r: int, n: int)
    requires Copied(ram, p, ram1, q, n) && Copied(ram1, q, ram2, r, n)
    ensures Copied(ram, p, ram2, r, n)
  {
    forall z | 0 <= z < n ensures SameByte(ram, p, ram2, r, z) {
      assert SameByte(ram, p, ram1, q, z) && SameByte(ram1, q, ram2, r, z);
    }
  }

  lemma PrefixCopied(p: int, n: nat, ram: map<int, byte>, ram': map<int, byte>)
    requires ram'.Keys == ram.Keys && forall z :: p <= z < p + n ==> z in ram
    requires forall z :: p <= z < p + n && z in ram ==> ram'[z] == ram[z]
    ensures Copied(ram, p, ram', p, n)
  {
  }
}
