/**
 * src/opengl/wrap/Program.h: shader program bookkeeping. A Program keeps a
 * registry of attributes and uniforms by name, numbers its 2D-sampler
 * uniforms with consecutive texture units, and tracks whether it is attached.
 * A ProgField stores its values in an Array of 4-byte elements.
 *
 * Uniform and Attribute are both ProgField here: a uniform's texture unit is
 * a constant of the field (-1 for attributes and non-sampler uniforms).
 */
module Program {
  import opened Log
  import opened GLCalls
  import opened ArrayBuffer

  /** sizeof(float) and sizeof(int). */
  const FLOAT_SIZE: nat := 4

  datatype DataType =
    | BOOL | INT | FLOAT | FLOAT_POINTER
    | FVEC2 | FVEC3 | FVEC4
    | IVEC2 | IVEC3 | IVEC4
    | BVEC2 | BVEC3 | BVEC4
    | FMAT2 | FMAT3 | FMAT4
    | SAMPLER_2D | SAMPLER_CUBE

  /** Vector types by their dimension. */
  predicate IsVector(t: DataType, n: int)
  {
    match t
    case FVEC2 | IVEC2 | BVEC2 => n == 2
    case FVEC3 | IVEC3 | BVEC3 => n == 3
    case FVEC4 | IVEC4 | BVEC4 => n == 4
    case _ => false
  }

  /** Square matrix types by their dimension. */
  predicate IsMatrix(t: DataType, n: int)
  {
    match t
    case FMAT2 => n == 2
    case FMAT3 => n == 3
    case FMAT4 => n == 4
    case _ => false
  }

  /** dataElements(): how many 4-byte values one value of the type holds. */
  function DataElements(t: DataType): (n: int)
    ensures t == FLOAT_POINTER <==> n == 0
    ensures n == 1 <==> t in {BOOL, INT, FLOAT, SAMPLER_2D, SAMPLER_CUBE}
  {
    match t
    case BOOL | INT | FLOAT => 1
    case FVEC2 | IVEC2 | BVEC2 => 2
    case FVEC3 | IVEC3 | BVEC3 => 3
    case FVEC4 | IVEC4 | BVEC4 => 4
    case FMAT2 => 4
    case FMAT3 => 9
    case FMAT4 => 16
    case SAMPLER_2D | SAMPLER_CUBE => 1
    case FLOAT_POINTER => 0
  }

  /** dataByteSize() */
  function DataByteSize(t: DataType): int
  {
    DataElements(t) * FLOAT_SIZE
  }

  /**
   * The element count by shape: a vector of dimension n holds n values, an
   * n x n matrix n * n values, and the byte size is four bytes per value.
   */
  lemma DataElementsByShape(t: DataType, n: int)
    ensures IsVector(t, n) ==> DataElements(t) == n
    ensures IsMatrix(t, n) ==> DataElements(t) == n * n
    ensures DataByteSize(t) == 4 * DataElements(t)
    ensures 0 <= DataElements(t) <= 16
  {
  }

  /**
   * The count the 2-, 3- and 4-value set() overloads hand to Array::put as
   * written: sizeof(a) for `T a[] = {v, v1, ...}`, a byte count.
   */
  function SetOverloadCountAsWritten(values: nat, sizeOfT: nat): nat
  {
    values * sizeOfT
  }

  /**
   * put(a, count) copies `count` elements of T from `a`. With float or int
   * values the overloads ask for four times as many elements as `a` holds, so
   * the copy reads past the end of the local array.
   */
  lemma SetOverloadReadsPastArray(values: nat, sizeOfT: nat)
    requires 2 <= values <= 4 && sizeOfT >= 2
    ensures SetOverloadCountAsWritten(values, sizeOfT) > values
    ensures SetOverloadCountAsWritten(2, FLOAT_SIZE) == 8
  {
  }

  /**
   * ivalue(0) .. ivalue(n - 1), or fvalue: each reads one 4-byte value through
   * Array::at, whose data<T>(i) is fatal unless element i lies inside the
   * buffer's `capacity` bytes. The reads go in index order.
   */
  function ReadValues(n: nat, capacity: nat): (r: Outcome<()>)
    ensures r.Ok? <==> n * FLOAT_SIZE <= capacity
  {
    if n == 0 then Ok(())
    else match ReadValues(n - 1, capacity)
      case Raised(msg) => Raised(msg)
      case Ok(_) => if DataIndexFatal(n - 1, FLOAT_SIZE, capacity) then Raised("Invalid index") else Ok(())
  }

  /**
   * How many values Uniform::input reads before its GL call: n for an
   * n-vector, one for a scalar and a sampler, and one for a matrix, whose
   * pointer comes from data<float>() at index 0.
   */
  function UniformValuesRead(t: DataType): (n: nat)
    ensures t in {INT, FLOAT, SAMPLER_2D, FMAT2, FMAT3, FMAT4} ==> n == 1
    ensures t in {IVEC2, IVEC3, IVEC4, FVEC2, FVEC3, FVEC4} ==> IsVector(t, n)
  {
    match t
    case IVEC2 | FVEC2 => 2
    case IVEC3 | FVEC3 => 3
    case IVEC4 | FVEC4 => 4
    case _ => 1
  }

  /**
   * Uniform::input's checks: the location must have been found (an error,
   * which throws in strict mode), only the types with a glUniform call are
   * accepted, a 2D sampler needs a texture unit, and every value the call
   * takes must lie inside m_data's `capacity` bytes.
   */
  function UniformInputCheck(t: DataType, texUnitIndex: int, location: int, capacity: nat): (r: Outcome<()>)
    ensures r.Ok? <==> (&& location >= 0
                        && t in {INT, IVEC2, IVEC3, IVEC4, FLOAT, FVEC2, FVEC3, FVEC4, FMAT2, FMAT3, FMAT4, SAMPLER_2D}
                        && (t == SAMPLER_2D ==> texUnitIndex >= 0)
                        && UniformValuesRead(t) * FLOAT_SIZE <= capacity)
  {
    if location < 0 then Raised("location not found")
    else match t
      case INT | IVEC2 | IVEC3 | IVEC4 | FLOAT | FVEC2 | FVEC3 | FVEC4 | FMAT2 | FMAT3 | FMAT4 =>
        ReadValues(UniformValuesRead(t), capacity)
      case SAMPLER_2D => if texUnitIndex < 0 then Raised("Error texture unit index") else ReadValues(1, capacity)
      case _ => Raised("invalid uniform data type")
  }

  /**
   * How many values Attribute::input reads: n for FLOAT and the float
   * vectors, and for FLOAT_POINTER one (data<float>() at index 0) unless
   * coordinates are bound, which it reads instead of m_data.
   */
  function AttributeValuesRead(t: DataType, coordsBound: bool): (n: nat)
    ensures t == FLOAT ==> n == 1
    ensures t in {FVEC2, FVEC3, FVEC4} ==> IsVector(t, n)
    ensures t == FLOAT_POINTER ==> (n == 0 <==> coordsBound) && n <= 1
  {
    match t
    case FVEC2 => 2
    case FVEC3 => 3
    case FVEC4 => 4
    case FLOAT_POINTER => if coordsBound then 0 else 1
    case _ => 1
  }

  /**
   * Attribute::input's checks: the location must have been found (an error,
   * which throws in strict mode), only the float types and FLOAT_POINTER are
   * uploaded (any other type is fatal), and the values it reads from m_data
   * must lie inside its `capacity` bytes.
   */
  function AttributeInputCheck(t: DataType, location: int, capacity: nat, coordsBound: bool): (r: Outcome<()>)
    ensures r.Ok? <==> (&& location >= 0 && t in {FLOAT, FVEC2, FVEC3, FVEC4, FLOAT_POINTER}
                        && AttributeValuesRead(t, coordsBound) * FLOAT_SIZE <= capacity)
  {
    if location < 0 then Raised("location not found")
    else match t
      case FLOAT | FVEC2 | FVEC3 | FVEC4 | FLOAT_POINTER => ReadValues(AttributeValuesRead(t, coordsBound), capacity)
      case _ => Raised("Unsupported field type")
  }

  /** The location a field's input() uses: m_location once found, otherwise the GL lookup's answer. */
  function FieldLocation(stored: int, looked: int): (r: int)
    ensures stored >= 0 ==> r == stored
    ensures stored < 0 ==> r == looked
  {
    if stored < 0 then looked else stored
  }

  /** Whether one attribute passes Attribute::input's checks, `looked` being the GL lookup's answer. */
  predicate AttributeOk(f: ProgField, looked: int)
    reads f, f.data
  {
    AttributeInputCheck(f.fieldType, FieldLocation(f.location, looked), f.data.capacity, f.coordsBound).Ok?
  }

  /** Whether one uniform passes Uniform::input's checks, `looked` being the GL lookup's answer. */
  predicate UniformOk(f: ProgField, looked: int)
    reads f, f.data
  {
    UniformInputCheck(f.fieldType, f.texUnitIndex, FieldLocation(f.location, looked), f.data.capacity).Ok?
  }

  /**
   * The vertex-array calls of a k-attribute input(): each FLOAT_POINTER
   * attribute binds the program's vertex array and unbinds it twice, and the
   * final bind follows. The first bind generates the array when there is none.
   */
  function VertexArrayCalls(first: int, freshId: nat, k: nat): (calls: seq<GLCall>)
    ensures |calls| == (if first == -1 then 1 else 0) + 3 * k + 1
  {
    var v := if first == -1 then freshId else first;
    (if first == -1 then [GenVertexArray(freshId)] else []) + Rebinds(v, k) + [BindVertexArray(v)]
  }

  /**
   * k binds of vertex array v, each followed by VAO::unbind() and
   * VBO::unbind(), both of which are glBindVertexArray(0).
   */
  function Rebinds(v: int, k: nat): (calls: seq<GLCall>)
    ensures |calls| == 3 * k
  {
    if k == 0 then [] else Rebinds(v, k - 1) + [BindVertexArray(v)] + UnbindCalls()
  }

  /** VAO::unbind() then VBO::unbind(): the same glBindVertexArray(0) twice. */
  function UnbindCalls(): (calls: seq<GLCall>)
    ensures calls == [BindVertexArray(0), BindVertexArray(0)]
  {
    VaoUnbind() + VboUnbind()
  }

  /** VAO::unbind() */
  function VaoUnbind(): seq<GLCall>
  {
    [BindVertexArray(0)]
  }

  /** VBO::unbind(): unbinds the vertex array, not the buffer. */
  function VboUnbind(): seq<GLCall>
  {
    [BindVertexArray(0)]
  }

  /** The names of the FLOAT_POINTER attributes among `names`. */
  function BufferAttrNames(attrs: map<string, ProgField>, names: set<string>): set<string>
  {
    set n | n in names && n in attrs && attrs[n].fieldType == FLOAT_POINTER
  }

  /** Taking one more name off the to-do set adds it to the buffer-fed names exactly when it is a FLOAT_POINTER attribute. */
  lemma BufferAttrNamesTake(attrs: map<string, ProgField>, todo: set<string>, n: string)
    requires todo <= attrs.Keys && n in todo
    ensures |BufferAttrNames(attrs, attrs.Keys - (todo - {n}))| ==
            |BufferAttrNames(attrs, attrs.Keys - todo)| + (if attrs[n].fieldType == FLOAT_POINTER then 1 else 0)
  {
    var names := attrs.Keys - todo;
    assert attrs.Keys - (todo - {n}) == names + {n};
    if attrs[n].fieldType == FLOAT_POINTER {
      assert BufferAttrNames(attrs, names + {n}) == BufferAttrNames(attrs, names) + {n};
    } else {
      assert BufferAttrNames(attrs, names + {n}) == BufferAttrNames(attrs, names);
    }
  }

  /** The calls the attribute loop has issued after k FLOAT_POINTER attributes, `first` being the vertex array before it. */
  function BufferAttrCalls(first: int, freshId: nat, k: nat): (calls: seq<GLCall>)
    ensures |calls| == (if k > 0 && first == -1 then 1 else 0) + 3 * k
  {
    (if k > 0 && first == -1 then [GenVertexArray(freshId)] else [])
    + Rebinds(if k > 0 && first == -1 then freshId else first, k)
  }

  /** One more FLOAT_POINTER attribute appends bind() of the vertex array and the two unbinds. */
  lemma BufferAttrCallsNext(first: int, freshId: nat, k: nat)
    ensures BufferAttrCalls(first, freshId, k + 1) ==
            BufferAttrCalls(first, freshId, k)
            + (if k == 0 && first == -1 then [GenVertexArray(freshId), BindVertexArray(freshId)]
               else [BindVertexArray(if first == -1 then freshId else first)])
            + UnbindCalls()
  {
  }

  /** A sampler uniform that was given no texture unit never reaches GL, whatever its location. */
  lemma SamplerWithoutUnitIsFatal(texUnitIndex: int, location: int, capacity: nat)
    requires texUnitIndex < 0
    ensures UniformInputCheck(SAMPLER_2D, texUnitIndex, location, capacity).Raised?
  {
  }

  class ProgField {
    const name: string
    const fieldType: DataType
    /** Uniform::m_tex_unit_index; -1 for attributes and for uniforms that are not 2D samplers. */
    const texUnitIndex: int
    /** m_data */
    const data: Array<real>
    /** m_location; -1 until looked up. */
    var location: int
    /** Attribute::m_bind_coord != nullptr: the coordinates input() uploads instead of m_data. */
    var coordsBound: bool

    ghost predicate Valid()
      reads this, data
    {
      data.Valid() && data.unit == FLOAT_SIZE
    }

    constructor (n: string, t: DataType, unitIndex: int)
      ensures Valid() && fresh(data) && fresh(data.Repr)
      ensures name == n && fieldType == t && texUnitIndex == unitIndex && location == -1 && !coordsBound
      ensures data.Contents() == [] && data.GetPutSize() == 0 && data.capacity == 0
    {
      name := n;
      fieldType := t;
      texUnitIndex := unitIndex;
      data := new Array(FLOAT_SIZE);
      location := -1;
      coordsBound := false;
    }

    /** put(v): copies dataElements() values from `v`, reusing the buffer when it is large enough. */
    method Put(v: seq<real>)
      requires Valid() && |v| >= DataElements(fieldType)
      modifies data.Repr
      ensures Valid() && fresh(data.Repr - old(data.Repr))
      ensures var n := DataElements(fieldType);
              n <= |data.Contents()| && data.Contents()[..n] == v[..n] && data.GetPutSize() == n
    {
      data.Put(v, DataElements(fieldType), false);
    }

    /**
     * set(v), set(v, v1), set(v, v1, v2), set(v, v1, v2, v3): stores the given
     * values. The count is the number of values, as intended; see
     * SetOverloadCountAsWritten for what the multi-value overloads pass.
     */
    method Set(values: seq<real>)
      requires Valid() && 1 <= |values| <= 4
      modifies data.Repr
      ensures Valid() && fresh(data.Repr - old(data.Repr))
      ensures |values| <= |data.Contents()| && data.Contents()[..|values|] == values
      ensures data.GetPutSize() == |values|
    {
      data.Put(values, |values|, false);
    }

    /**
     * Attribute::put(values, size): stores `size` values. The GLCoord overload
     * does the same with the coordinates' floats.
     */
    method PutValues(values: seq<real>, size: nat)
      requires Valid() && |values| >= size
      modifies data.Repr
      ensures Valid() && fresh(data.Repr - old(data.Repr))
      ensures size <= |data.Contents()| && data.Contents()[..size] == values[..size]
      ensures data.GetPutSize() == size && data.capacity >= size * FLOAT_SIZE
    {
      data.Put(values, size, false);
    }

    /** Attribute::bind(coords): from now on input() uploads the bound coordinates instead of m_data. */
    method BindCoords()
      modifies this
      ensures coordsBound
      ensures location == old(location)
    {
      coordsBound := true;
    }
  }

  class VBO {
    /** m_vbo */
    var vbo: nat
    /** m_size, the byte size of the buffer store; -1 before the first bind. */
    var size: int

    constructor ()
      ensures vbo == 0 && size == -1
    {
      vbo := 0;
      size := -1;
    }

    /**
     * bind(points, byteSize): a new buffer (deleting the old one, if any) when
     * the byte size changed, otherwise an in-place update of the old one.
     * `freshId` is the id glGenBuffers returns.
     */
    method Bind(byteSize: int, freshId: nat) returns (calls: seq<GLCall>)
      modifies this
      ensures size == byteSize
      ensures old(size) != byteSize ==>
                && vbo == freshId
                && calls == (if old(size) != -1 then [DeleteBuffer(old(vbo))] else []) + [GenBuffer(freshId, byteSize)]
      ensures old(size) == byteSize ==> vbo == old(vbo) && calls == [BufferSubData(vbo, byteSize)]
    {
      if size != byteSize {
        calls := [];
        if size != -1 {
          calls := [DeleteBuffer(vbo)];
        }
        vbo := freshId;
        calls := calls + [GenBuffer(vbo, byteSize)];
        size := byteSize;
      } else {
        calls := [BufferSubData(vbo, byteSize)];
      }
    }
  }

  class VAO {
    /** m_vao; -1 while no vertex array exists. */
    var vao: int

    constructor ()
      ensures vao == -1
    {
      vao := -1;
    }

    /** bind(): generates the vertex array on first use (`freshId` is its id), then binds it. */
    method Bind(freshId: nat) returns (calls: seq<GLCall>)
      modifies this
      ensures old(vao) == -1 ==> vao == freshId && calls == [GenVertexArray(freshId), BindVertexArray(freshId)]
      ensures old(vao) != -1 ==> vao == old(vao) && calls == [BindVertexArray(vao)]
    {
      calls := [];
      if vao == -1 {
        vao := freshId;
        calls := [GenVertexArray(vao)];
      }
      calls := calls + [BindVertexArray(vao)];
    }

    /** release(): deletes the vertex array if there is one; a second release does nothing. */
    method Release() returns (calls: seq<GLCall>)
      modifies this
      ensures vao == -1
      ensures calls == if old(vao) != -1 then [DeleteVertexArray(old(vao))] else []
    {
      calls := [];
      if vao != -1 {
        calls := [DeleteVertexArray(vao)];
        vao := -1;
      }
    }
  }

  class Program {
    /** m_id */
    var id: nat
    var vertexShader: string
    var fragmentShader: string
    var attached: bool
    /** m_uniform_texture_count */
    var textureCount: int
    const vao: VAO
    var attrs: map<string, ProgField>
    var uniforms: map<string, ProgField>

    /**
     * Every field is registered under its own name; 2D-sampler uniforms hold
     * distinct texture units below the counter, other uniforms hold -1.
     */
    ghost predicate Valid()
      reads this
    {
      && textureCount >= 0
      && (forall n :: n in attrs ==> attrs[n].name == n)
      && (forall n :: n in uniforms ==> uniforms[n].name == n)
      && (forall n :: n in uniforms && uniforms[n].fieldType == SAMPLER_2D ==>
            0 <= uniforms[n].texUnitIndex < textureCount)
      && (forall n :: n in uniforms && uniforms[n].fieldType != SAMPLER_2D ==> uniforms[n].texUnitIndex == -1)
      && (forall a, b ::
            (&& a in uniforms && b in uniforms && a != b
             && uniforms[a].fieldType == SAMPLER_2D && uniforms[b].fieldType == SAMPLER_2D) ==>
            uniforms[a].texUnitIndex != uniforms[b].texUnitIndex)
    }

    /** Program(vs, fs): no GL program yet. */
    constructor (vs: string, fs: string)
      ensures Valid() && fresh(vao)
      ensures id == INVALID_GL_ID && vertexShader == vs && fragmentShader == fs
      ensures !attached && textureCount == 0 && attrs == map[] && uniforms == map[]
    {
      id := INVALID_GL_ID;
      vertexShader := vs;
      fragmentShader := fs;
      attached := false;
      textureCount := 0;
      vao := new VAO();
      attrs := map[];
      uniforms := map[];
    }

    /** valid() */
    predicate IsValid()
      reads this
    {
      id != INVALID_GL_ID
    }

    /**
     * release(): deletes the GL program, drops every attribute and uniform and
     * the vertex array. The attached flag and the texture-unit counter stay.
     */
    method Release() returns (calls: seq<GLCall>)
      requires Valid()
      modifies this, vao
      ensures Valid()
      ensures id == INVALID_GL_ID && attrs == map[] && uniforms == map[] && vao.vao == -1
      ensures attached == old(attached) && textureCount == old(textureCount)
      ensures vertexShader == old(vertexShader) && fragmentShader == old(fragmentShader)
      ensures calls == (if old(id) != INVALID_GL_ID then [DeleteProgram(old(id))] else [])
                       + (if old(vao.vao) != -1 then [DeleteVertexArray(old(vao.vao))] else [])
    {
      calls := [];
      if id != INVALID_GL_ID {
        calls := [DeleteProgram(id)];
        id := INVALID_GL_ID;
      }
      attrs := map[];
      uniforms := map[];
      var c := vao.Release();
      calls := calls + c;
    }

    /**
     * create(vs, fs): loads a program when there is none; with a live program
     * and different sources, releases it first and loads again; with the same
     * sources does nothing. `loaded` is the id GLUtil::loadProgram returns
     * (INVALID_GL_ID on failure). A failed load is an `_ERROR_RETURN_IF`, which
     * throws, so create never returns false.
     */
    method Create(vs: string, fs: string, loaded: nat) returns (r: Outcome<bool>, calls: seq<GLCall>)
      requires Valid()
      modifies this, vao
      ensures Valid()
      ensures r.Ok? ==> r.value && id != INVALID_GL_ID && vertexShader == vs && fragmentShader == fs
      ensures var same := old(id) != INVALID_GL_ID && old(vertexShader) == vs && old(fragmentShader) == fs;
              && (same ==> r == Ok(true) && calls == [] && id == old(id)
                           && attrs == old(attrs) && uniforms == old(uniforms) && vao.vao == old(vao.vao))
              && (!same ==> (r.Ok? <==> loaded != INVALID_GL_ID) && id == loaded)
              && (!same && old(id) != INVALID_GL_ID ==>
                    && attrs == map[] && uniforms == map[] && vao.vao == -1
                    && calls == [DeleteProgram(old(id))]
                                + (if old(vao.vao) != -1 then [DeleteVertexArray(old(vao.vao))] else []))
              && (!same && old(id) == INVALID_GL_ID ==>
                    calls == [] && attrs == old(attrs) && uniforms == old(uniforms) && vao.vao == old(vao.vao))
      ensures r.Raised? ==> vertexShader == old(vertexShader) && fragmentShader == old(fragmentShader)
      ensures attached == old(attached) && textureCount == old(textureCount)
    {
      calls := [];
      if id == INVALID_GL_ID {
        id := loaded;
        if id == INVALID_GL_ID {
          return Raised("create gl program failed"), calls;
        }
        vertexShader, fragmentShader := vs, fs;
      } else if vertexShader != vs || fragmentShader != fs {
        calls := Release();
        id := loaded;
        if id == INVALID_GL_ID {
          return Raised("create gl program failed"), calls;
        }
        vertexShader, fragmentShader := vs, fs;
      }
      r := Ok(true);
    }

    /**
     * attach(): creates the program from the stored sources when there is none,
     * then uses it and sets the flag; when already attached, changes nothing.
     * The `return false` after a failed create is unreachable, since create
     * throws instead.
     */
    method Attach(loaded: nat) returns (r: Outcome<bool>, calls: seq<GLCall>)
      requires Valid()
      modifies this, vao
      ensures Valid()
      ensures old(attached) ==> r == Ok(true) && calls == [] && id == old(id)
                                && attrs == old(attrs) && uniforms == old(uniforms)
      ensures r.Ok? ==> r.value && attached
      ensures r.Raised? <==> !old(attached) && old(id) == INVALID_GL_ID && loaded == INVALID_GL_ID
      ensures r.Raised? ==> !attached
      ensures !old(attached) && r.Ok? ==> calls == [UseProgram(id)] && id != INVALID_GL_ID
                                          && (old(id) != INVALID_GL_ID ==> id == old(id))
                                          && (old(id) == INVALID_GL_ID ==> id == loaded)
      ensures attrs == old(attrs) && uniforms == old(uniforms)
      ensures vertexShader == old(vertexShader) && fragmentShader == old(fragmentShader) && vao.vao == old(vao.vao)
      ensures textureCount == old(textureCount)
    {
      calls := [];
      if !attached {
        if id == INVALID_GL_ID {
          var c;
          c, calls := Create(vertexShader, fragmentShader, loaded);
          if c.Raised? {
            return Raised(c.msg), calls;
          }
        }
        calls := calls + [UseProgram(id)];
        attached := true;
      }
      r := Ok(attached);
    }

    /** Every attribute passes Attribute::input's checks; `lookup` stands for glGetAttribLocation. */
    predicate AttributesReady(lookup: string -> int)
      reads this, set n | n in attrs :: attrs[n], set n | n in attrs :: attrs[n].data
    {
      forall n :: n in attrs ==> AttributeOk(attrs[n], lookup(n))
    }

    /** Every uniform passes Uniform::input's checks; `lookup` stands for glGetUniformLocation. */
    predicate UniformsReady(lookup: string -> int)
      reads this, set n | n in uniforms :: uniforms[n], set n | n in uniforms :: uniforms[n].data
    {
      forall n :: n in uniforms ==> UniformOk(uniforms[n], lookup(n))
    }

    /**
     * input(): fatal unless attached; then every attribute's and every
     * uniform's input(), each of which throws when its location is not found,
     * its type is not one it uploads or a value it reads lies outside its
     * data, and finally the vertex array is
     * bound. `attribLocation` and `uniformLocation` are what the GL location
     * lookups answer for a name. The calls returned are those on the vertex
     * array, which each FLOAT_POINTER attribute binds and unbinds twice.
     */
    method Input(freshVao: nat, attribLocation: string -> int, uniformLocation: string -> int)
      returns (r: Outcome<seq<GLCall>>)
      requires Valid()
      modifies vao
      ensures r.Raised? <==> !attached || !AttributesReady(attribLocation) || !UniformsReady(uniformLocation)
      ensures !attached ==> vao.vao == old(vao.vao)
      ensures r.Raised? ==> vao.vao == old(vao.vao) || (old(vao.vao) == -1 && vao.vao == freshVao)
      ensures r.Ok? ==> vao.vao == (if old(vao.vao) == -1 then freshVao else old(vao.vao))
      ensures r.Ok? ==> r.value == VertexArrayCalls(old(vao.vao), freshVao, |BufferAttrNames(attrs, attrs.Keys)|)
    {
      if !attached {
        return Raised("gl program not attached while input");
      }
      var a := InputAttributes(freshVao, attribLocation);
      if a.Raised? {
        return Raised(a.msg);
      }
      var u := InputUniforms(uniformLocation);
      if u.Raised? {
        return Raised(u.msg);
      }
      var c := vao.Bind(freshVao);
      r := Ok(a.value + c);
    }

    /** The attribute loop of input(): the vertex-array calls so far, or the first attribute's error. */
    method InputAttributes(freshVao: nat, lookup: string -> int) returns (r: Outcome<seq<GLCall>>)
      modifies vao
      ensures var k := |BufferAttrNames(attrs, attrs.Keys)|;
              && (r.Raised? <==> !AttributesReady(lookup))
              && (r.Raised? ==> vao.vao == old(vao.vao) || (old(vao.vao) == -1 && vao.vao == freshVao))
              && (r.Ok? ==> vao.vao == (if k > 0 && old(vao.vao) == -1 then freshVao else old(vao.vao)))
              && (r.Ok? ==> r.value == (if k > 0 && old(vao.vao) == -1 then [GenVertexArray(freshVao)] else [])
                                       + Rebinds(vao.vao, k))
    {
      var first := vao.vao;
      var calls: seq<GLCall> := [];
      var k := 0;
      var todo := attrs.Keys;
      while todo != {}
        invariant todo <= attrs.Keys
        invariant forall n :: n in attrs && n !in todo ==> AttributeOk(attrs[n], lookup(n))
        invariant k == |BufferAttrNames(attrs, attrs.Keys - todo)|
        invariant vao.vao == (if k > 0 && first == -1 then freshVao else first)
        invariant calls == BufferAttrCalls(first, freshVao, k)
      {
        var n :| n in todo;
        var f := attrs[n];
        var check := AttributeInputCheck(f.fieldType, FieldLocation(f.location, lookup(n)), f.data.capacity, f.coordsBound);
        if check.Raised? {
          return Raised(check.msg);
        }
        if f.fieldType == FLOAT_POINTER {
          calls := BindBufferAttr(first, freshVao, k, calls);
        }
        BufferAttrNamesTake(attrs, todo, n);
        k := k + (if f.fieldType == FLOAT_POINTER then 1 else 0);
        todo := todo - {n};
      }
      assert attrs.Keys - todo == attrs.Keys;
      r := Ok(calls);
    }

    /**
     * The vertex-array calls of one FLOAT_POINTER attribute's input(): bind()
     * of the program's vertex array, generating it on first use, then
     * VAO::unbind() and VBO::unbind(). `calls` are those of the k before it.
     */
    method BindBufferAttr(first: int, freshVao: nat, k: nat, calls: seq<GLCall>) returns (next: seq<GLCall>)
      requires vao.vao == (if k > 0 && first == -1 then freshVao else first)
      requires calls == BufferAttrCalls(first, freshVao, k)
      modifies vao
      ensures vao.vao == (if first == -1 then freshVao else first)
      ensures next == BufferAttrCalls(first, freshVao, k + 1)
    {
      var c := vao.Bind(freshVao);
      BufferAttrCallsNext(first, freshVao, k);
      next := calls + c + VaoUnbind() + VboUnbind();
    }

    /** The uniform loop of input(): nothing, or the first uniform's error. */
    method InputUniforms(lookup: string -> int) returns (r: Outcome<()>)
      ensures r.Raised? <==> !UniformsReady(lookup)
    {
      var todo := uniforms.Keys;
      while todo != {}
        invariant todo <= uniforms.Keys
        invariant forall n :: n in uniforms && n !in todo ==> UniformOk(uniforms[n], lookup(n))
      {
        var n :| n in todo;
        var f := uniforms[n];
        var check := UniformInputCheck(f.fieldType, f.texUnitIndex, FieldLocation(f.location, lookup(n)), f.data.capacity);
        if check.Raised? {
          return Raised(check.msg);
        }
        todo := todo - {n};
      }
      r := Ok(());
    }

    /** detach(): unbinds and clears the flag; when already detached, only warns. */
    method Detach() returns (calls: seq<GLCall>)
      requires Valid()
      modifies this
      ensures Valid() && !attached
      ensures calls == if old(attached) then VaoUnbind() + [UseProgram(0)] else []
      ensures id == old(id) && attrs == old(attrs) && uniforms == old(uniforms) && textureCount == old(textureCount)
    {
      calls := [];
      if attached {
        calls := VaoUnbind() + [UseProgram(0)];
        attached := false;
      }
    }

    /** defAttribute(name, type): the registered attribute of that name, whatever its type, or a new one. */
    method DefAttribute(name: string, t: DataType) returns (f: ProgField)
      requires Valid()
      modifies this
      ensures Valid()
      ensures name in old(attrs) ==> f == old(attrs[name]) && attrs == old(attrs)
      ensures name !in old(attrs) ==> fresh(f) && f.Valid() && f.fieldType == t && f.name == name
                                      && attrs == old(attrs)[name := f]
      ensures uniforms == old(uniforms) && textureCount == old(textureCount) && id == old(id)
      ensures attached == old(attached)
    {
      if name in attrs {
        return attrs[name];
      }
      f := new ProgField(name, t, -1);
      attrs := attrs[name := f];
    }

    /** attribute(name): the registered attribute, or null. */
    function Attribute(name: string): (f: Option<ProgField>)
      reads this
      ensures f.Some? <==> name in attrs
      ensures f.Some? ==> f.value == attrs[name]
    {
      if name in attrs then Some(attrs[name]) else None
    }

    /** nextTexUnitIndex(): the counter before incrementing it. */
    method NextTexUnitIndex() returns (i: int)
      modifies this
      ensures i == old(textureCount) && textureCount == old(textureCount) + 1
      ensures id == old(id) && attrs == old(attrs) && uniforms == old(uniforms) && attached == old(attached)
    {
      i := textureCount;
      textureCount := textureCount + 1;
    }

    /**
     * defUniform(name, type): the registered uniform of that name, whatever its
     * type, or a new one; a new 2D sampler takes the next texture unit.
     */
    method DefUniform(name: string, t: DataType) returns (f: ProgField)
      requires Valid()
      modifies this
      ensures Valid()
      ensures name in old(uniforms) ==> f == old(uniforms[name]) && uniforms == old(uniforms)
                                        && textureCount == old(textureCount)
      ensures name !in old(uniforms) ==> fresh(f) && f.Valid() && f.fieldType == t && f.name == name
                                         && uniforms == old(uniforms)[name := f]
      ensures name !in old(uniforms) && t == SAMPLER_2D ==>
                f.texUnitIndex == old(textureCount) && textureCount == old(textureCount) + 1
      ensures name !in old(uniforms) && t != SAMPLER_2D ==> f.texUnitIndex == -1 && textureCount == old(textureCount)
      ensures attrs == old(attrs) && id == old(id) && attached == old(attached)
    {
      if name in uniforms {
        return uniforms[name];
      }
      if t == SAMPLER_2D {
        var unit := NextTexUnitIndex();
        f := new ProgField(name, t, unit);
      } else {
        f := new ProgField(name, t, -1);
      }
      uniforms := uniforms[name := f];
    }

    /** uniform(name): the registered uniform, or null. */
    function Uniform(name: string): (f: Option<ProgField>)
      reads this
      ensures f.Some? <==> name in uniforms
      ensures f.Some? ==> f.value == uniforms[name]
    {
      if name in uniforms then Some(uniforms[name]) else None
    }
  }

  datatype Option<T> = None | Some(value: T)
}
