/** The initial lattice built by SPHSystem::initializeParticles. */
module Grid {
  import opened Vectors
  import opened Particles

  /** How many times `for (int n = 0; n < count; ++n)` runs. */
  function Iterations(count: int): nat {
    if count > 0 then count else 0
  }

  /** `glm::vec3(x * spacing, y * spacing, z * spacing)` */
  function LatticePoint(x: int, y: int, z: int, spacing: real): Vec3 {
    Vec3(x as real * spacing, y as real * spacing, z as real * spacing)
  }

  /** The particles z = 0 .. n-1 of the column at (x, y), in emission order. */
  function Column(x: int, y: int, n: nat, spacing: real): seq<Particle> {
    if n == 0 then []
    else Column(x, y, n - 1, spacing) + [NewParticle(LatticePoint(x, y, n - 1, spacing))]
  }

  /** Columns y = 0 .. m-1 of the slab at x, each of numZ particles. */
  function Slab(x: int, m: nat, numZ: nat, spacing: real): seq<Particle> {
    if m == 0 then []
    else Slab(x, m - 1, numZ, spacing) + Column(x, m - 1, numZ, spacing)
  }

  /** Slabs x = 0 .. l-1, each of numY columns of numZ particles. */
  function Slabs(l: nat, numY: nat, numZ: nat, spacing: real): seq<Particle> {
    if l == 0 then []
    else Slabs(l - 1, numY, numZ, spacing) + Slab(l - 1, numY, numZ, spacing)
  }

  /** Everything initializeParticles appends: x-major, then y, then z. */
  function Lattice(numX: int, numY: int, numZ: int, spacing: real): seq<Particle> {
    Slabs(Iterations(numX), Iterations(numY), Iterations(numZ), spacing)
  }

  /** Emitting the particle at (x, y, z) after a store and column z-prefix extends the column. */
  lemma ColumnGrows(store: seq<Particle>, x: int, y: int, z: nat, spacing: real)
    ensures store + Column(x, y, z, spacing) + [NewParticle(LatticePoint(x, y, z, spacing))]
            == store + Column(x, y, z + 1, spacing)
  {
  }

  /** Finishing column y after a store and slab y-prefix extends the slab. */
  lemma SlabGrows(store: seq<Particle>, x: int, y: nat, numZ: nat, spacing: real)
    ensures store + Slab(x, y, numZ, spacing) + Column(x, y, numZ, spacing)
            == store + Slab(x, y + 1, numZ, spacing)
  {
  }

  /** Finishing slab x after a store and the slabs before it extends the slabs. */
  lemma SlabsGrow(store: seq<Particle>, x: nat, numY: nat, numZ: nat, spacing: real)
    ensures store + Slabs(x, numY, numZ, spacing) + Slab(x, numY, numZ, spacing)
            == store + Slabs(x + 1, numY, numZ, spacing)
  {
  }

  lemma {:induction false} ColumnAt(x: int, y: int, n: nat, spacing: real, z: nat)
    requires z < n
    ensures |Column(x, y, n, spacing)| == n
    ensures Column(x, y, n, spacing)[z] == NewParticle(LatticePoint(x, y, z, spacing))
  {
    if z < n - 1 {
      ColumnAt(x, y, n - 1, spacing, z);
    } else if n > 1 {
      ColumnAt(x, y, n - 1, spacing, 0);
    }
  }

  lemma {:induction false} ColumnLength(x: int, y: int, n: nat, spacing: real)
    ensures |Column(x, y, n, spacing)| == n
  {
    if n > 0 {
      ColumnAt(x, y, n, spacing, 0);
    }
  }

  /** a*m + b < n*m for a < n and b < m: the offset stays inside the block. */
  lemma BlockOffset(a: nat, b: nat, n: nat, m: nat)
    requires a < n && b < m
    ensures 0 <= a * m + b < n * m
  {
    assert 0 <= a * m;
    assert a * m + b < a * m + m;
    assert a * m + m == (a + 1) * m;
    assert (a + 1) * m <= n * m;
  }

  /** One more block of size b: (a - 1) * b + b == a * b. */
  lemma OneMoreBlock(a: nat, b: int)
    requires a > 0
    ensures (a - 1) * b + b == a * b
  {
  }

  lemma {:induction false} SlabLength(x: int, m: nat, numZ: nat, spacing: real)
    ensures |Slab(x, m, numZ, spacing)| == m * numZ
  {
    if m > 0 {
      SlabLength(x, m - 1, numZ, spacing);
      ColumnLength(x, m - 1, numZ, spacing);
      OneMoreBlock(m, numZ);
    }
  }

  lemma {:induction false} SlabAt(x: int, m: nat, numZ: nat, spacing: real, y: nat, z: nat)
    requires y < m && z < numZ
    ensures 0 <= y * numZ + z < |Slab(x, m, numZ, spacing)|
    ensures Slab(x, m, numZ, spacing)[y * numZ + z] == NewParticle(LatticePoint(x, y, z, spacing))
  {
    SlabLength(x, m, numZ, spacing);
    BlockOffset(y, z, m, numZ);
    SlabLength(x, m - 1, numZ, spacing);
    if y < m - 1 {
      BlockOffset(y, z, m - 1, numZ);
      SlabAt(x, m - 1, numZ, spacing, y, z);
    } else {
      ColumnAt(x, y, numZ, spacing, z);
    }
  }

  lemma {:induction false} SlabsLength(l: nat, numY: nat, numZ: nat, spacing: real)
    ensures |Slabs(l, numY, numZ, spacing)| == l * (numY * numZ)
  {
    if l > 0 {
      SlabsLength(l - 1, numY, numZ, spacing);
      SlabLength(l - 1, numY, numZ, spacing);
      OneMoreBlock(l, numY * numZ);
    }
  }

  lemma {:induction false} SlabsAt(l: nat, numY: nat, numZ: nat, spacing: real, x: nat, y: nat, z: nat)
    requires x < l && y < numY && z < numZ
    ensures 0 <= x * (numY * numZ) + (y * numZ + z) < |Slabs(l, numY, numZ, spacing)|
    ensures Slabs(l, numY, numZ, spacing)[x * (numY * numZ) + (y * numZ + z)]
            == NewParticle(LatticePoint(x, y, z, spacing))
  {
    var block := numY * numZ;
    var offset := y * numZ + z;
    BlockOffset(y, z, numY, numZ);
    BlockOffset(x, offset, l, block);
    SlabsLength(l, numY, numZ, spacing);
    SlabsLength(l - 1, numY, numZ, spacing);
    SlabAt(l - 1, numY, numZ, spacing, y, z);
    if x < l - 1 {
      BlockOffset(x, offset, l - 1, block);
      SlabsAt(l - 1, numY, numZ, spacing, x, y, z);
    } else {
      SlabAt(x, numY, numZ, spacing, y, z);
      var before := Slabs(l - 1, numY, numZ, spacing);
      assert |before| == x * block;
      assert Slabs(l, numY, numZ, spacing) == before + Slab(x, numY, numZ, spacing);
    }
  }

  /** A grid with a non-positive dimension emits nothing. */
  lemma {:induction false} SlabsEmpty(l: nat, numY: nat, numZ: nat, spacing: real)
    requires numY == 0 || numZ == 0
    ensures Slabs(l, numY, numZ, spacing) == []
  {
    SlabsLength(l, numY, numZ, spacing);
  }

  lemma IndexSplit(x: int, y: int, z: int, numY: int, numZ: int)
    ensures (x * numY + y) * numZ + z == x * (numY * numZ) + (y * numZ + z)
  {
  }

  /** initializeParticles emits numX*numY*numZ particles when every dimension is positive, none otherwise. */
  lemma LatticeSize(numX: int, numY: int, numZ: int, spacing: real)
    ensures |Lattice(numX, numY, numZ, spacing)|
            == if numX > 0 && numY > 0 && numZ > 0 then numX * numY * numZ else 0
  {
    var l, m, n := Iterations(numX), Iterations(numY), Iterations(numZ);
    SlabsLength(l, m, n, spacing);
    if numX > 0 && numY > 0 && numZ > 0 {
      assert l * (m * n) == numX * numY * numZ;
    } else if numX <= 0 {
      assert l == 0;
    } else {
      assert m == 0 || n == 0;
      SlabsEmpty(l, m, n, spacing);
    }
  }

  /** The particle at (x*numY + y)*numZ + z is a fresh particle at (x, y, z) * spacing. */
  lemma LatticeAt(numX: int, numY: int, numZ: int, spacing: real, x: int, y: int, z: int)
    requires 0 <= x < numX && 0 <= y < numY && 0 <= z < numZ
    ensures 0 <= (x * numY + y) * numZ + z < |Lattice(numX, numY, numZ, spacing)|
    ensures Lattice(numX, numY, numZ, spacing)[(x * numY + y) * numZ + z]
            == NewParticle(LatticePoint(x, y, z, spacing))
  {
    IndexSplit(x, y, z, numY, numZ);
    SlabsAt(numX, numY, numZ, spacing, x, y, z);
  }
}
