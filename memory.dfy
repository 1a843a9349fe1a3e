/** The flat 64 KiB memory bus of the emulator (Computer/Memory.py).
    The pure functions below describe the cells as a sequence; the class `Mem`
    holds them in an array that its methods update in place. */
module Memory {

  /** Number of cells: 64 KiB (1024 * 64). */
  const MAX_MEM: nat := 0x1_0000

  predicate IsByte(v: int) { 0 <= v < 256 }

  /** A memory image: exactly MAX_MEM cells, each a byte. */
  predicate WellFormed(cells: seq<int>)
  {
    |cells| == MAX_MEM && forall i :: 0 <= i < |cells| ==> IsByte(cells[i])
  }

  /** The cell an address selects: `address & 0xFFFF`. For every integer,
      negative ones included, that mask is the Euclidean remainder by 65536. */
  function Wrap(address: int): (i: nat)
    ensures i < MAX_MEM
    ensures (address - i) % MAX_MEM == 0
  {
    address % MAX_MEM
  }

  /** Indexed read; no address is out of range. */
  function Load(cells: seq<int>, address: int): (v: int)
    requires WellFormed(cells)
    ensures IsByte(v)
  {
    cells[Wrap(address)]
  }

  /** Indexed write of one byte. */
  function Store(cells: seq<int>, address: int, value: int): (r: seq<int>)
    requires WellFormed(cells) && IsByte(value)
    ensures WellFormed(r)
    ensures Load(r, address) == value
    ensures forall i :: 0 <= i < MAX_MEM && i != Wrap(address) ==> r[i] == cells[i]
  {
    cells[Wrap(address) := value]
  }

  /** Read after write: an address congruent to the written one modulo 65536
      reads the new value, any other address reads what it read before. */
  lemma LoadAfterStore(cells: seq<int>, address: int, value: int, other: int)
    requires WellFormed(cells) && IsByte(value)
    ensures Load(Store(cells, address, value), other)
            == if (other - address) % MAX_MEM == 0 then value else Load(cells, other)
  {
    var i, j := Wrap(address), Wrap(other);
    var q, k := address / MAX_MEM, other / MAX_MEM;
    assert address == q * MAX_MEM + i && other == k * MAX_MEM + j;
    var r := if j >= i then j - i else j - i + MAX_MEM;
    assert 0 <= r < MAX_MEM && (r == 0 <==> i == j);
    assert other - address == (k - q - (if j >= i then 0 else 1)) * MAX_MEM + r;
    assert (other - address) % MAX_MEM == r;
  }

  /** The image `init` installs. */
  function Zeroed(): (r: seq<int>)
    ensures WellFormed(r)
    ensures forall a :: Load(r, a) == 0
  {
    seq(MAX_MEM, _ => 0)
  }

  /** A 16-bit word stored low byte first at `address` and `address + 1`,
      with no wrap applied to either address. */
  function StoreWord(cells: seq<int>, address: int, data: int): (r: seq<int>)
    requires WellFormed(cells)
    requires 0 <= address < MAX_MEM - 1 && 0 <= data < 0x1_0000
    ensures WellFormed(r)
    ensures r[address] + 256 * r[address + 1] == data
    ensures forall i :: 0 <= i < MAX_MEM && i != address && i != address + 1 ==> r[i] == cells[i]
  {
    // `data & 0xFF` and `data >> 8` on a non-negative word
    cells[address := data % 256][address + 1 := data / 256]
  }

  class Mem {
    var Data: array<int>

    ghost predicate Valid()
      reads this, Data
    {
      WellFormed(Data[..])
    }

    constructor ()
      ensures Valid() && fresh(Data)
      ensures Data[..] == Zeroed()
    {
      Data := new int[MAX_MEM](_ => 0);
    }

    /** `mem[address]` */
    function Get(address: int): (v: int)
      reads this, Data
      requires Valid()
      ensures v == Load(Data[..], address)
    {
      Data[Wrap(address)]
    }

    /** `mem[address] = value`; the source does not mask `value`, so it must
        already be a byte for every cell to stay one. */
    method Set(address: int, value: int)
      requires Valid() && IsByte(value)
      modifies Data
      ensures Valid()
      ensures Data[..] == Store(old(Data[..]), address, value)
    {
      Data[Wrap(address)] := value;
    }

    /** Replaces the cells by a fresh zero-filled array of MAX_MEM cells. */
    method Init()
      modifies this
      ensures Valid() && fresh(Data)
      ensures Data[..] == Zeroed()
    {
      Data := new int[MAX_MEM](_ => 0);
    }

    /** Writes `data` low byte first at `address`, `address + 1` and charges
        two cycles to the caller's counter. */
    method WriteWord(cycles: int, address: int, data: int) returns (cyclesOut: int)
      requires Valid()
      requires 0 <= address < MAX_MEM - 1 && 0 <= data < 0x1_0000
      modifies Data
      ensures Valid()
      ensures Data[..] == StoreWord(old(Data[..]), address, data)
      ensures cyclesOut == cycles - 2
    {
      Data[address] := data % 256;
      Data[address + 1] := data / 256;
      cyclesOut := cycles - 2;
    }
  }
}
