/** The engine's small vector types, instantiated at unbounded integers:
    componentwise addition, subtraction and multiplication. */
module LinAlg {

  datatype Vector2 = Vector2(x: int, y: int)

  datatype Vector3 = Vector3(x: int, y: int, z: int)

  /** `Vector2::new`: the components are stored as given. */
  function New2(x: int, y: int): (v: Vector2)
    ensures v.x == x && v.y == y
  {
    Vector2(x, y)
  }

  /** `Vector2 + Vector2`. The source sums `rhs + self` per component. */
  function Add2(a: Vector2, b: Vector2): (r: Vector2)
  {
    Vector2(b.x + a.x, b.y + a.y)
  }

  /** `Vector2 - Vector2`: `self - rhs` per component. */
  function Sub2(a: Vector2, b: Vector2): (r: Vector2)
  {
    Vector2(a.x - b.x, a.y - b.y)
  }

  /** `Vector2 * Vector2`: the componentwise (Hadamard) product. */
  function Mul2(a: Vector2, b: Vector2): (r: Vector2)
  {
    Vector2(a.x * b.x, a.y * b.y)
  }

  /** `Vector2 * T`: every component scaled by `k`. */
  function Scale2(a: Vector2, k: int): (r: Vector2)
  {
    Vector2(a.x * k, a.y * k)
  }

  /** `Vector3::new`: the components are stored as given. */
  function New3(x: int, y: int, z: int): (v: Vector3)
    ensures v.x == x && v.y == y && v.z == z
  {
    Vector3(x, y, z)
  }

  /** `Vector3 + Vector3`, again `rhs + self` per component. */
  function Add3(a: Vector3, b: Vector3): (r: Vector3)
  {
    Vector3(b.x + a.x, b.y + a.y, b.z + a.z)
  }

  /** `Vector3 - Vector3`: `self - rhs` per component. */
  function Sub3(a: Vector3, b: Vector3): (r: Vector3)
  {
    Vector3(a.x - b.x, a.y - b.y, a.z - b.z)
  }

  const Zero2 := Vector2(0, 0)
  const Zero3 := Vector3(0, 0, 0)

  /** Adding with the operands swapped gives the same vector, although the
      source adds the right operand first. */
  lemma Add2Commutes(a: Vector2, b: Vector2)
    ensures Add2(a, b) == Add2(b, a)
  {
  }

  /** Addition is associative and has the zero vector as identity. */
  lemma Add2Monoid(a: Vector2, b: Vector2, c: Vector2)
    ensures Add2(Add2(a, b), c) == Add2(a, Add2(b, c))
    ensures Add2(a, Zero2) == a && Add2(Zero2, a) == a
  {
  }

  /** Subtraction undoes addition in both orders. */
  lemma Sub2UndoesAdd2(a: Vector2, b: Vector2)
    ensures Sub2(Add2(a, b), b) == a
    ensures Add2(Sub2(a, b), b) == a
    ensures Sub2(a, a) == Zero2
  {
  }

  /** The componentwise product commutes and distributes over addition. */
  lemma Mul2Laws(a: Vector2, b: Vector2, c: Vector2)
    ensures Mul2(a, b) == Mul2(b, a)
    ensures Mul2(a, Add2(b, c)) == Add2(Mul2(a, b), Mul2(a, c))
  {
  }

  /** Scaling by k is the product with the vector (k, k); it distributes over
      addition, and scaling by 1 and by 0 give the vector and zero. */
  lemma Scale2Laws(a: Vector2, b: Vector2, k: int)
    ensures Scale2(a, k) == Mul2(a, Vector2(k, k))
    ensures Scale2(Add2(a, b), k) == Add2(Scale2(a, k), Scale2(b, k))
    ensures Scale2(a, 1) == a && Scale2(a, 0) == Zero2
  {
  }

  lemma Add3Commutes(a: Vector3, b: Vector3)
    ensures Add3(a, b) == Add3(b, a)
  {
  }

  lemma Add3Monoid(a: Vector3, b: Vector3, c: Vector3)
    ensures Add3(Add3(a, b), c) == Add3(a, Add3(b, c))
    ensures Add3(a, Zero3) == a && Add3(Zero3, a) == a
  {
  }

  lemma Sub3UndoesAdd3(a: Vector3, b: Vector3)
    ensures Sub3(Add3(a, b), b) == a
    ensures Add3(Sub3(a, b), b) == a
    ensures Sub3(a, a) == Zero3
  {
  }
}
