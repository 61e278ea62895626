/** The cached list of peers, indexed by alias and by off-chain address (idprovider/local/cache.go). */
module PeerCacheSpec {
  import opened Wrappers
  import opened RegistrySpec

  /** Reading an address from text and writing it in its canonical form. */
  datatype WalletBackend = WalletBackend(parse: string -> Option<Address>, format: Address -> string)

  /** The canonical form of every address can be read back. */
  ghost predicate CanonicalFormParses(b: WalletBackend) {
    forall a :: b.parse(b.format(a)) == Some(a)
  }

  /** A peer; its parsed address is missing until the cache has filled it in. */
  datatype PeerID = PeerID(alias: string, addrString: string, addr: Option<Address>, commType: string, commAddr: string)

  datatype WriteError = PeerIDAlreadyRegistered | PeerAliasAlreadyUsed | ParsingOffChainAddress

  datatype Cache = Cache(peers: map<string, PeerID>, aliasByAddr: map<string, string>)

  predicate PeerIDEqual(p: PeerID, q: PeerID) {
    p.alias == q.alias && p.addrString == q.addrString && p.commType == q.commType && p.commAddr == q.commAddr
  }

  function Parsed(b: WalletBackend, p: PeerID): PeerID {
    p.(addr := b.parse(p.addrString))
  }

  // ----- the steps

  /** A successful write indexes the new peer by its alias and by its address text. */
  predicate Writable(b: WalletBackend, c: Cache, alias: string, p: PeerID) {
    alias !in c.peers && b.parse(p.addrString).Some?
  }

  function WriteStep(b: WalletBackend, c: Cache, alias: string, p: PeerID): Cache {
    if Writable(b, c, alias, p)
    then Cache(c.peers[alias := Parsed(b, p)], c.aliasByAddr[p.addrString := alias])
    else c
  }

  function ReadByAlias(c: Cache, alias: string): Option<PeerID> {
    if alias in c.peers then Some(c.peers[alias]) else None
  }

  function ReadByOffChainAddr(b: WalletBackend, c: Cache, addr: Option<Address>): Option<PeerID> {
    if addr.None? || b.format(addr.value) !in c.aliasByAddr then None
    else ReadByAlias(c, c.aliasByAddr[b.format(addr.value)])
  }

  predicate AllKnown(b: WalletBackend, c: Cache, addrs: seq<Address>) {
    forall i :: 0 <= i < |addrs| ==> ReadByOffChainAddr(b, c, Some(addrs[i])).Some?
  }

  /** Each peer by alias up to the first unknown one, and nobody from there on. */
  predicate Named(b: WalletBackend, c: Cache, addrs: seq<Address>, parts: seq<string>) {
    && |parts| == |addrs|
    && forall i :: 0 <= i < |addrs| ==>
         parts[i] == if AllKnown(b, c, addrs[..i + 1])
                     then ReadByOffChainAddr(b, c, Some(addrs[i])).value.alias else ""
  }

  /** The first n peers are known and named, the others not yet read. */
  predicate NamedUpTo(b: WalletBackend, c: Cache, addrs: seq<Address>, parts: seq<string>, n: nat) {
    && n <= |addrs| == |parts|
    && forall i :: 0 <= i < |addrs| ==>
         if i < n then ReadByOffChainAddr(b, c, Some(addrs[i])).Some?
                    && parts[i] == ReadByOffChainAddr(b, c, Some(addrs[i])).value.alias
         else parts[i] == ""
  }

  lemma NamedUpToUnknown(b: WalletBackend, c: Cache, addrs: seq<Address>, parts: seq<string>, n: nat)
    requires NamedUpTo(b, c, addrs, parts, n)
    requires n < |addrs| ==> ReadByOffChainAddr(b, c, Some(addrs[n])).None?
    ensures Named(b, c, addrs, parts)
    ensures AllKnown(b, c, addrs) <==> n == |addrs|
  {
  }

  /** Every entry carries its parsed address and is reachable text; every indexed text leads to an
      entry with that very text. */
  predicate Valid(b: WalletBackend, c: Cache) {
    && (forall a :: a in c.peers ==>
          && c.peers[a].addr.Some? && c.peers[a].addr == b.parse(c.peers[a].addrString)
          && c.peers[a].addrString in c.aliasByAddr)
    && (forall s :: s in c.aliasByAddr ==>
          c.aliasByAddr[s] in c.peers && c.peers[c.aliasByAddr[s]].addrString == s)
  }

  lemma WriteValid(b: WalletBackend, c: Cache, alias: string, p: PeerID)
    requires Valid(b, c)
    ensures Valid(b, WriteStep(b, c, alias, p))
  {
  }

  /** A lookup by address finds only peers with that address, written in its canonical form. */
  lemma FoundPeerHasTheAddress(b: WalletBackend, c: Cache, addr: Address)
    requires Valid(b, c) && CanonicalFormParses(b)
    ensures var r := ReadByOffChainAddr(b, c, Some(addr));
      && (r.Some? ==> r.value.addr == Some(addr) && r.value.addrString == b.format(addr))
      && (r.Some? <==> exists a :: a in c.peers && c.peers[a].addrString == b.format(addr))
  {
    if r :| r in c.peers && c.peers[r].addrString == b.format(addr) {
      assert b.format(addr) in c.aliasByAddr;
    }
    if b.format(addr) in c.aliasByAddr {
      assert c.aliasByAddr[b.format(addr)] in c.peers;
    }
  }

  /** A peer that was just written is found by its address exactly when the address text it was written
      with is the canonical one. */
  lemma WrittenPeerFoundIffCanonical(b: WalletBackend, c: Cache, alias: string, p: PeerID)
    requires Valid(b, c) && CanonicalFormParses(b) && Writable(b, c, alias, p)
    ensures var d := WriteStep(b, c, alias, p);
      var addr := b.parse(p.addrString);
      ReadByOffChainAddr(b, d, addr) == Some(Parsed(b, p)) <==> p.addrString == b.format(addr.value)
  {
    var d := WriteStep(b, c, alias, p);
    WriteValid(b, c, alias, p);
    FoundPeerHasTheAddress(b, d, b.parse(p.addrString).value);
  }

  /** A backend that reads two texts, "0x.." and "0X..", as one address, and writes the first. */
  function TwoPrefixes(): WalletBackend {
    WalletBackend(
      text => if "0x" <= text || "0X" <= text then Some(Address(text[2..])) else None,
      (a: Address) => "0x" + a.hex)
  }

  /** So a peer can be missed: one written with the other text of its address is in the cache, under that
      address, and the lookup by the address finds nobody. */
  lemma WrittenPeerMissed(alias: string, hex: string, commType: string, commAddr: string)
    ensures var b, p := TwoPrefixes(), PeerID(alias, "0X" + hex, None, commType, commAddr);
      var d := WriteStep(b, Cache(map[], map[]), alias, p);
      && CanonicalFormParses(b)
      && ReadByAlias(d, alias) == Some(p.(addr := Some(Address(hex))))
      && ReadByOffChainAddr(b, d, Some(Address(hex))) == None
  {
    var b, text := TwoPrefixes(), "0X" + hex;
    assert text[..2] == "0X" && text[2..] == hex;
    assert b.parse(text) == Some(Address(hex));
    forall a: Address ensures b.parse(b.format(a)) == Some(a) {
      var canonical := "0x" + a.hex;
      assert canonical[..2] == "0x" && canonical[2..] == a.hex;
    }
    assert ("0x" + hex)[1] != text[1];
  }

  // ----- runs

  datatype Write = Write(alias: string, peer: PeerID)

  function Run(b: WalletBackend, c: Cache, ws: seq<Write>): Cache {
    if ws == [] then c
    else var w := ws[|ws| - 1]; WriteStep(b, Run(b, c, ws[..|ws| - 1]), w.alias, w.peer)
  }

  /** Write k of the run succeeded. */
  predicate Succeeded(b: WalletBackend, c: Cache, ws: seq<Write>, k: nat)
    requires k < |ws|
  {
    Writable(b, Run(b, c, ws[..k]), ws[k].alias, ws[k].peer)
  }

  /** The alias of the last successful write with this address text, or what was indexed before. */
  function LastAlias(b: WalletBackend, c: Cache, ws: seq<Write>, addr: string): Option<string> {
    if ws == [] then if addr in c.aliasByAddr then Some(c.aliasByAddr[addr]) else None
    else if Succeeded(b, c, ws, |ws| - 1) && ws[|ws| - 1].peer.addrString == addr
    then Some(ws[|ws| - 1].alias)
    else LastAlias(b, c, ws[..|ws| - 1], addr)
  }

  /** In every run of writes, each address text leads to the last alias indexed for it, whose entry
      carries that text and the address parsed from it; and an alias once written keeps its entry. */
  lemma {:induction false} IndicesAgree(b: WalletBackend, c: Cache, ws: seq<Write>, addr: string, alias: string)
    requires Valid(b, c)
    ensures var d := Run(b, c, ws);
      && Valid(b, d)
      && LastAlias(b, c, ws, addr) == (if addr in d.aliasByAddr then Some(d.aliasByAddr[addr]) else None)
      && (addr in d.aliasByAddr ==>
            && ReadByAlias(d, d.aliasByAddr[addr]).Some?
            && ReadByAlias(d, d.aliasByAddr[addr]).value.addrString == addr
            && ReadByAlias(d, d.aliasByAddr[addr]).value.addr == b.parse(addr))
      && (alias in c.peers ==> ReadByAlias(d, alias) == Some(c.peers[alias]))
  {
    if ws != [] {
      var n := |ws| - 1;
      IndicesAgree(b, c, ws[..n], addr, alias);
      WriteValid(b, Run(b, c, ws[..n]), ws[n].alias, ws[n].peer);
    }
  }

}

/** The cache object. Each operation runs under its lock. */
module PeerCache {
  import opened Wrappers
  import opened RegistrySpec
  import Spec = PeerCacheSpec
  import opened PeerCacheSpec

  /** The peers read so far from a file are indexed by their address texts, and nothing else is. */
  ghost predicate AddrsIndexed(file: map<string, PeerID>, read: set<string>, aliases: map<string, string>)
    requires read <= file.Keys
  {
    && (forall a :: a in read ==> file[a].addrString in aliases)
    && (forall s :: s in aliases ==> exists a :: a in read && file[a].addrString == s && file[a].alias == aliases[s])
  }

  lemma NextAddrIndexed(file: map<string, PeerID>, read: set<string>, aliases: map<string, string>, alias: string)
    requires read <= file.Keys && alias in file && AddrsIndexed(file, read, aliases)
    ensures AddrsIndexed(file, read + {alias}, aliases[file[alias].addrString := file[alias].alias])
  {
    var after := aliases[file[alias].addrString := file[alias].alias];
    forall s | s in after
      ensures exists a :: a in read + {alias} && file[a].addrString == s && file[a].alias == after[s]
    {
      if s == file[alias].addrString {
        assert alias in read + {alias} && file[alias].alias == after[s];
      } else {
        var a :| a in read && file[a].addrString == s && file[a].alias == aliases[s];
        assert a in read + {alias};
      }
    }
  }

  /** The addresses of the peers read so far are parsed; everything else is as in the file. */
  predicate Parsing(b: WalletBackend, file: map<string, PeerID>, read: set<string>, peers: map<string, PeerID>) {
    && peers.Keys == file.Keys
    && forall a :: a in file ==>
         if a !in read then peers[a] == file[a]
         else b.parse(file[a].addrString).Some? && peers[a] == file[a].(addr := b.parse(file[a].addrString))
  }

  lemma NextParsing(b: WalletBackend, file: map<string, PeerID>, read: set<string>, peers: map<string, PeerID>,
                    alias: string)
    requires Parsing(b, file, read, peers) && alias in file && alias !in read && b.parse(file[alias].addrString).Some?
    ensures Parsing(b, file, read + {alias}, peers[alias := peers[alias].(addr := b.parse(peers[alias].addrString))])
  {
  }

  /** A file that was read completely. If every peer is filed under its own alias, the indices agree. */
  lemma Loaded(b: WalletBackend, file: map<string, PeerID>, read: set<string>, peers: map<string, PeerID>,
               aliases: map<string, string>)
    requires read == file.Keys && Parsing(b, file, read, peers) && AddrsIndexed(file, read, aliases)
    ensures peers == map a | a in file :: file[a].(addr := b.parse(file[a].addrString))
    ensures (forall a :: a in file ==> file[a].alias == a) ==> Valid(b, Cache(peers, aliases))
  {
    if forall a :: a in file ==> file[a].alias == a {
      forall s | s in aliases ensures aliases[s] in peers && peers[aliases[s]].addrString == s {
        var a :| a in read && file[a].addrString == s && file[a].alias == aliases[s];
        assert aliases[s] == a;
      }
    }
  }

  class IdProviderCache {
    const walletBackend: WalletBackend
    var peerIDsByAlias: map<string, PeerID>
    var aliasByAddr: map<string, string>

    function View(): Cache
      reads this
    {
      Cache(peerIDsByAlias, aliasByAddr)
    }

    constructor (peers: map<string, PeerID>, aliases: map<string, string>, backend: WalletBackend)
      ensures View() == Cache(peers, aliases) && walletBackend == backend
    {
      peerIDsByAlias, aliasByAddr, walletBackend := peers, aliases, backend;
    }

    /** Loading a file of peers, in whatever order its map is read: it fails exactly when some address
        cannot be parsed. If every peer is filed under its own alias, the indices agree. */
    static method New(file: map<string, PeerID>, backend: WalletBackend) returns (cache: IdProviderCache?)
      ensures cache == null <==> exists a :: a in file && backend.parse(file[a].addrString).None?
      ensures cache != null ==>
        && fresh(cache) && cache.walletBackend == backend
        && cache.peerIDsByAlias == (map a | a in file :: file[a].(addr := backend.parse(file[a].addrString)))
        && (forall a :: a in file ==> file[a].addrString in cache.aliasByAddr)
        && (forall s :: s in cache.aliasByAddr ==>
              exists a :: a in file && file[a].addrString == s && file[a].alias == cache.aliasByAddr[s])
        && ((forall a :: a in file ==> file[a].alias == a) ==> Valid(backend, cache.View()))
    {
      var peers, aliases: map<string, string> := file, map[];
      var rest := file.Keys;
      ghost var read: set<string> := {};
      while rest != {}
        invariant read !! rest && read + rest == file.Keys
        invariant Parsing(backend, file, read, peers)
        invariant AddrsIndexed(file, read, aliases)
        decreases rest
      {
        var alias :| alias in rest;
        var peer := peers[alias];
        var addr := backend.parse(peer.addrString);
        if addr.None? {
          assert file[alias] == peer;
          return null;
        }
        NextAddrIndexed(file, read, aliases, alias);
        NextParsing(backend, file, read, peers, alias);
        peer := peer.(addr := addr);
        peers := peers[alias := peer];
        aliases := aliases[peer.addrString := peer.alias];
        rest := rest - {alias};
        read := read + {alias};
      }
      Loaded(backend, file, read, peers, aliases);
      cache := new IdProviderCache(peers, aliases, backend);
    }

    method ReadByAlias(alias: string) returns (r: Option<PeerID>)
      ensures r == Spec.ReadByAlias(View(), alias)
      ensures r == if alias in peerIDsByAlias then Some(peerIDsByAlias[alias]) else None
    {
      if alias !in peerIDsByAlias {
        return None;
      }
      return Some(peerIDsByAlias[alias]);
    }

    method ReadByOffChainAddr(offChainAddr: Option<Address>) returns (r: Option<PeerID>)
      ensures r == Spec.ReadByOffChainAddr(walletBackend, View(), offChainAddr)
      ensures offChainAddr.None? ==> r == None
      ensures offChainAddr.Some? ==>
        var text := walletBackend.format(offChainAddr.value);
        r == if text in aliasByAddr && aliasByAddr[text] in peerIDsByAlias
             then Some(peerIDsByAlias[aliasByAddr[text]]) else None
    {
      if offChainAddr.None? {
        return None;
      }
      var text := walletBackend.format(offChainAddr.value);
      if text !in aliasByAddr {
        return None;
      }
      r := ReadByAlias(aliasByAddr[text]);
    }

    method Write(alias: string, p: PeerID) returns (err: Option<WriteError>)
      modifies this
      ensures View() == WriteStep(walletBackend, old(View()), alias, p)
      ensures err.None? <==> alias !in old(peerIDsByAlias) && walletBackend.parse(p.addrString).Some?
      ensures err.None? ==>
        && peerIDsByAlias == old(peerIDsByAlias)[alias := p.(addr := walletBackend.parse(p.addrString))]
        && aliasByAddr == old(aliasByAddr)[p.addrString := alias]
      ensures err.Some? ==> View() == old(View())
      ensures alias in old(peerIDsByAlias) ==>
        var q := old(peerIDsByAlias)[alias];
        err == Some(if p.(addr := None) == q.(addr := None) then PeerIDAlreadyRegistered else PeerAliasAlreadyUsed)
      ensures alias !in old(peerIDsByAlias) && walletBackend.parse(p.addrString).None? ==>
        err == Some(ParsingOffChainAddress)
    {
      if alias in peerIDsByAlias {
        if PeerIDEqual(peerIDsByAlias[alias], p) {
          return Some(PeerIDAlreadyRegistered);
        }
        return Some(PeerAliasAlreadyUsed);
      }
      var addr := walletBackend.parse(p.addrString);
      if addr.None? {
        return Some(ParsingOffChainAddress);
      }
      peerIDsByAlias := peerIDsByAlias[alias := p.(addr := addr)];
      aliasByAddr := aliasByAddr[p.addrString := alias];
      return None;
    }
  }
}
