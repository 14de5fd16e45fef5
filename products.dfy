/**
 * The product store (`ProductsProvider`): the catalogue held in memory,
 * changed only after the REST API confirms a write, with lookups by server id
 * and, ignoring letter case, by product code.
 */
module Products {
  import opened Common
  import Seqs

  /** The fixed product categories (`TIPOS_PRODUTO`). */
  datatype ProductType = OculosDeGrau | OculosDeSol | Lente | LenteDeContato | Acessorio | Outro

  /** A product as the server returns it (`Produto`); prices are integer cents. */
  datatype Product = Product(
    id: string,
    codigo: string,
    nome: string,
    tipo: ProductType,
    marca: string,
    precoCusto: Option<int>,
    precoVenda: int,
    estoque: int)

  /** `toLowerCase` on one character, for the ASCII letters. */
  function LowerChar(c: char): (r: char)
    ensures 'A' <= c <= 'Z' ==> 'a' <= r <= 'z' && r as int - c as int == 32
    ensures !('A' <= c <= 'Z') ==> r == c
  {
    if 'A' <= c <= 'Z' then (c as int + 32) as char else c
  }

  /** `toLowerCase` on an ASCII string: same length, each upper-case letter lowered. */
  function ToLower(s: string): (r: string)
    ensures |r| == |s|
    ensures forall i :: 0 <= i < |s| ==> !('A' <= r[i] <= 'Z')
    ensures forall i :: 0 <= i < |s| ==> r[i] == s[i] || ('A' <= s[i] <= 'Z' && r[i] as int == s[i] as int + 32)
  {
    seq(|s|, i requires 0 <= i < |s| => LowerChar(s[i]))
  }

  /** Lower-casing twice is lower-casing once. */
  lemma ToLowerIdempotent(s: string)
    ensures ToLower(ToLower(s)) == ToLower(s)
  {
    var once := ToLower(s);
    forall i | 0 <= i < |s| ensures ToLower(once)[i] == once[i] {
      assert !('A' <= once[i] <= 'Z');
    }
  }

  /** Codes that differ only in the case of their letters, in either direction, have the same key, e.g. "RB3025" and "rb3025". */
  lemma ToLowerIgnoresCase(a: string, b: string)
    requires |a| == |b|
    requires forall i :: 0 <= i < |a| ==> a[i] == b[i] || LowerChar(a[i]) == b[i] || LowerChar(b[i]) == a[i]
    ensures ToLower(a) == ToLower(b)
  {
    forall i | 0 <= i < |a| ensures ToLower(a)[i] == ToLower(b)[i] {
      if a[i] != b[i] {
        if LowerChar(a[i]) == b[i] {
          assert LowerChar(b[i]) == b[i];
        } else {
          assert LowerChar(b[i]) == a[i];
          assert LowerChar(a[i]) == a[i];
        }
      }
    }
  }

  /** Whether a stored product matches an already lower-cased code query. */
  predicate MatchesCode(p: Product, lowered: string) {
    ToLower(p.codigo) == lowered
  }

  class ProductStore {
    var products: seq<Product>
    var isLoading: bool

    /** A fresh provider: no products yet, loading. */
    constructor ()
      ensures products == [] && isLoading
    {
      products := [];
      isLoading := true;
    }

    /** The mount-time load: the server list replaces the catalogue; a failure keeps it; loading ends either way. */
    method FetchProducts(response: Response<seq<Product>>)
      modifies this
      ensures products == (if response.Ok? then response.body else old(products))
      ensures !isLoading
    {
      if response.Ok? {
        products := response.body;
      }
      isLoading := false;
    }

    /** A confirmed add puts the server's record first and keeps the old catalogue behind it. */
    method AddProduct(response: Response<Product>)
      modifies this
      ensures response.Ok? ==> products == [response.body] + old(products)
      ensures response.Err? ==> products == old(products)
      ensures isLoading == old(isLoading)
    {
      if response.Ok? {
        products := [response.body] + products;
      }
    }

    /** The first product whose id is `id`, or absent. */
    function GetProductById(id: string): (r: Option<Product>)
      reads this
      ensures r.None? <==> forall j :: 0 <= j < |products| ==> products[j].id != id
      ensures r.Some? ==> exists i :: 0 <= i < |products| && products[i] == r.value && r.value.id == id
                                      && forall j :: 0 <= j < i ==> products[j].id != id
    {
      Seqs.Find(products, (p: Product) => p.id == id)
    }

    /** The first product whose code equals `codigo` once both are lower-cased, or absent. */
    function GetProductByCodigo(codigo: string): (r: Option<Product>)
      reads this
      ensures r.None? <==> forall j :: 0 <= j < |products| ==> ToLower(products[j].codigo) != ToLower(codigo)
      ensures r.Some? ==> ToLower(r.value.codigo) == ToLower(codigo)
      ensures r.Some? ==> exists i :: 0 <= i < |products| && products[i] == r.value
                                      && forall j :: 0 <= j < i ==> ToLower(products[j].codigo) != ToLower(codigo)
    {
      var lowered := ToLower(codigo);
      Seqs.Find(products, (p: Product) => MatchesCode(p, lowered))
    }

    /** A confirmed update puts the server's record in place of every product with that id; nothing else moves. */
    method UpdateProduct(id: string, response: Response<Product>)
      modifies this
      ensures response.Err? ==> products == old(products)
      ensures |products| == |old(products)|
      ensures response.Ok? ==> forall i :: 0 <= i < |products| ==>
                products[i] == if old(products)[i].id == id then response.body else old(products)[i]
      ensures isLoading == old(isLoading)
    {
      if response.Ok? {
        var updated := response.body;
        products := seq(|products|, i requires 0 <= i < |products| reads this =>
                          if products[i].id == id then updated else products[i]);
      }
    }

    /** A confirmed delete drops exactly the products with that id and keeps the rest in order. */
    method DeleteProduct(id: string, response: Response<()>)
      modifies this
      ensures products == (if response.Ok? then Seqs.Filter(old(products), (p: Product) => p.id != id) else old(products))
      ensures response.Ok? ==> GetProductById(id).None?
      ensures isLoading == old(isLoading)
    {
      if response.Ok? {
        products := Seqs.Filter(products, (p: Product) => p.id != id);
      }
    }
  }
}
