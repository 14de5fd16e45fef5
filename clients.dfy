/**
 * The client store (`ClientsProvider`): the roster of clients held in memory,
 * changed only after the REST API confirms a write, with lookups by server id
 * and by CPF (the Brazilian tax id).
 */
module Clients {
  import opened Common
  import Seqs

  /** A client record as the server returns it (`Cliente`). Optional fields are `Option`s. */
  datatype Client = Client(
    id: string,
    fullName: string,
    phone: string,
    birthDate: Option<string>,
    cpf: Option<string>,
    gender: Option<string>,
    address: Option<string>,
    cep: Option<string>,
    notes: Option<string>,
    esfericoDireito: Option<string>,
    cilindricoDireito: Option<string>,
    eixoDireito: Option<string>,
    esfericoEsquerdo: Option<string>,
    cilindricoEsquerdo: Option<string>,
    eixoEsquerdo: Option<string>,
    adicao: Option<string>,
    vencimentoReceita: Option<string>)

  /** The characters `replace(/[.-]/g, '')` removes from a CPF. */
  predicate IsCpfPunctuation(c: char) {
    c == '.' || c == '-'
  }

  predicate IsCpfKept(c: char) {
    !IsCpfPunctuation(c)
  }

  /** A CPF with every `.` and `-` removed; every other character stays, in order. */
  function StripCpf(s: string): (r: string)
    ensures forall i :: 0 <= i < |r| ==> !IsCpfPunctuation(r[i])
  {
    Seqs.Filter(s, IsCpfKept)
  }

  /** Stripping works piece by piece, so the kept characters keep their order. */
  lemma StripCpfAppend(a: string, b: string)
    ensures StripCpf(a + b) == StripCpf(a) + StripCpf(b)
  {
    Seqs.FilterAppend(a, b, IsCpfKept);
  }

  /** A CPF without punctuation is its own normal form. */
  lemma StripCpfIdempotent(s: string)
    ensures StripCpf(StripCpf(s)) == StripCpf(s)
  {
    Seqs.FilterKeepsAll(StripCpf(s), IsCpfKept);
  }

  /** A string with no `.` or `-` in it. */
  predicate IsBare(s: string) {
    forall i :: 0 <= i < |s| ==> IsCpfKept(s[i])
  }

  /** Appending one `.` or `-` does not change the normalised key. */
  lemma StripCpfDropsPunctuation(s: string, punct: char)
    requires IsCpfPunctuation(punct)
    ensures StripCpf(s + [punct]) == StripCpf(s)
  {
    Seqs.FilterDropsAll([punct], IsCpfKept);
    StripCpfAppend(s, [punct]);
  }

  /**
   * The formatted spelling "ddd.ddd.ddd-dd" and the bare spelling "ddddddddddd"
   * of one CPF normalise to the same key (e.g. "123.456.789-00" and "12345678900").
   */
  lemma FormattedCpfMatchesBare(a: string, b: string, c: string, d: string)
    requires IsBare(a) && IsBare(b) && IsBare(c) && IsBare(d)
    ensures StripCpf(a + "." + b + "." + c + "-" + d) == StripCpf(a + b + c + d) == a + b + c + d
  {
    Seqs.FilterKeepsAll(a, IsCpfKept);
    Seqs.FilterKeepsAll(b, IsCpfKept);
    Seqs.FilterKeepsAll(c, IsCpfKept);
    Seqs.FilterKeepsAll(d, IsCpfKept);
    StripCpfDropsPunctuation(a, '.');
    StripCpfAppend(a + ".", b);
    StripCpfDropsPunctuation(a + "." + b, '.');
    StripCpfAppend(a + "." + b + ".", c);
    StripCpfDropsPunctuation(a + "." + b + "." + c, '-');
    StripCpfAppend(a + "." + b + "." + c + "-", d);
    StripCpfAppend(a, b);
    StripCpfAppend(a + b, c);
    StripCpfAppend(a + b + c, d);
  }

  /** Whether a stored client matches an already-stripped CPF query; a client without CPF never does. */
  predicate MatchesCpf(c: Client, cleaned: string) {
    c.cpf.Some? && StripCpf(c.cpf.value) == cleaned
  }

  class ClientStore {
    var clients: seq<Client>
    var isLoading: bool

    /** A fresh provider: no clients yet, loading. */
    constructor ()
      ensures clients == [] && isLoading
    {
      clients := [];
      isLoading := true;
    }

    /** The mount-time load: the server list replaces the roster; a failure keeps it; loading ends either way. */
    method FetchClients(response: Response<seq<Client>>)
      modifies this
      ensures clients == (if response.Ok? then response.body else old(clients))
      ensures !isLoading
    {
      if response.Ok? {
        clients := response.body;
      }
      isLoading := false;
    }

    /** A confirmed add puts the server's record first and keeps the old roster behind it. */
    method AddClient(response: Response<Client>)
      modifies this
      ensures response.Ok? ==> clients == [response.body] + old(clients)
      ensures response.Err? ==> clients == old(clients)
      ensures isLoading == old(isLoading)
    {
      if response.Ok? {
        clients := [response.body] + clients;
      }
    }

    /** The first client whose id is `id`, or absent. */
    function GetClientById(id: string): (r: Option<Client>)
      reads this
      ensures r.None? <==> forall j :: 0 <= j < |clients| ==> clients[j].id != id
      ensures r.Some? ==> exists i :: 0 <= i < |clients| && clients[i] == r.value && r.value.id == id
                                      && forall j :: 0 <= j < i ==> clients[j].id != id
    {
      Seqs.Find(clients, (c: Client) => c.id == id)
    }

    /** The first client whose CPF equals `cpf` once both are stripped of `.` and `-`, or absent. */
    function GetClientByCpf(cpf: string): (r: Option<Client>)
      reads this
      ensures r.None? <==> forall j :: 0 <= j < |clients| ==> !MatchesCpf(clients[j], StripCpf(cpf))
      ensures r.Some? ==> r.value.cpf.Some? && StripCpf(r.value.cpf.value) == StripCpf(cpf)
      ensures r.Some? ==> exists i :: 0 <= i < |clients| && clients[i] == r.value
                                      && forall j :: 0 <= j < i ==> !MatchesCpf(clients[j], StripCpf(cpf))
    {
      var cleaned := StripCpf(cpf);
      Seqs.Find(clients, (c: Client) => MatchesCpf(c, cleaned))
    }

    /** A confirmed update puts the server's record in place of every client with that id; nothing else moves. */
    method UpdateClient(id: string, response: Response<Client>)
      modifies this
      ensures response.Err? ==> clients == old(clients)
      ensures |clients| == |old(clients)|
      ensures response.Ok? ==> forall i :: 0 <= i < |clients| ==>
                clients[i] == if old(clients)[i].id == id then response.body else old(clients)[i]
      ensures isLoading == old(isLoading)
    {
      if response.Ok? {
        var updated := response.body;
        clients := seq(|clients|, i requires 0 <= i < |clients| reads this =>
                         if clients[i].id == id then updated else clients[i]);
      }
    }

    /** A confirmed delete drops exactly the clients with that id and keeps the rest in order. */
    method DeleteClient(id: string, response: Response<()>)
      modifies this
      ensures clients == (if response.Ok? then Seqs.Filter(old(clients), (c: Client) => c.id != id) else old(clients))
      ensures response.Ok? ==> GetClientById(id).None?
      ensures isLoading == old(isLoading)
    {
      if response.Ok? {
        clients := Seqs.Filter(clients, (c: Client) => c.id != id);
      }
    }
  }
}
