/** From a pasted wg-quick file to the router's UCI store and back. */
module TextToUci {
  import opened Common
  import opened WgConfig
  import opened WgParser
  import opened WgFormat
  import Uci
  import VpnImport

  lemma {:induction false} KeptFlaws(n: Net, ps: seq<Peer>, i: nat)
    ensures PeersFlaw(n, VpnImport.Kept(EMPTY.(peers := ps)).peers, i) == PeersFlaw(n, ps, i)
    decreases |ps|
  {
    if ps != [] {
      var kept := VpnImport.Kept(EMPTY.(peers := ps)).peers;
      assert kept[1..] == VpnImport.Kept(EMPTY.(peers := ps[1..])).peers;
      KeptFlaws(n, ps[1..], i + 1);
    }
  }

  lemma {:induction false} KeptStaysGood(n: Net, c: Config)
    requires Spellable(c) && Validate(n, c) == None
    ensures Spellable(VpnImport.Kept(c)) && Validate(n, VpnImport.Kept(c)) == None
  {
    var k := VpnImport.Kept(c);
    forall i | 0 <= i < |k.peers|
      ensures SpellablePeer(k.peers[i])
    {
      assert SpellablePeer(c.peers[i]);
    }
    KeptFlaws(n, c.peers, 1);
    assert k.peers == VpnImport.Kept(EMPTY.(peers := c.peers)).peers;
  }

  lemma {:induction false} KeptImportsAlike(c: Uci.Config, cfg: Config)
    ensures VpnImport.Imported(c, VpnImport.Kept(cfg)) == VpnImport.Imported(c, cfg)
  {
    var k := VpnImport.Kept(cfg);
    forall i | 0 <= i < |cfg.peers|
      ensures VpnImport.PeerSection(k.peers[i]) == VpnImport.PeerSection(cfg.peers[i])
    {
      assert VpnImport.EndpointEdits(k.peers[i]) == VpnImport.EndpointEdits(cfg.peers[i]);
    }
    assert VpnImport.PeerSections(k.peers) == VpnImport.PeerSections(cfg.peers);
  }

  /**
   Paste a text that parses, import it into any store, read wg0 and its peers back, write them out
   as a wg-quick file and paste that: it parses to what was read back, and importing it changes
   nothing in the network package.
   */
  lemma {:induction false} ExportAndReimport(n: Net, text: string, cfg: Config, u: Uci.State)
    requires Parse(n, text) == Ok(cfg)
    ensures var once := VpnImport.ImportResult(u, cfg);
            match VpnImport.ReadBack(once.network.committed)
            case None => false
            case Some(back) =>
              && back == VpnImport.Kept(cfg)
              && Parse(n, Render(back)) == Ok(back)
              && VpnImport.ImportResult(once, back).network == once.network
  {
    ParsedExactlyWhenSpellable(n, cfg);
    KeptStaysGood(n, cfg);
    var back := VpnImport.Kept(cfg);
    RenderParses(n, back);
    VpnImport.ImportReadsBack(u.network.staged, cfg);
    var once := VpnImport.ImportResult(u, cfg);
    KeptImportsAlike(once.network.staged, cfg);
  }
}
