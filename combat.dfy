/**
 * Characters that fight: a base character (Personaje) with two concrete kinds,
 * Guerrero and Mago, and a factory that builds one from a type name
 * (soluciones/ejercicio_22.py).
 *
 * The part of a character that a fight changes is captured by the value
 * `Stats`; the specification functions below say how each operation changes
 * it, and the class `Personaje` updates its fields in place so that its
 * `State()` follows those functions.
 */
module Combat {
  import opened Wrappers

  /** The two concrete subclasses of the abstract Personaje. */
  datatype Kind = Guerrero | Mago

  /** The fields of a character that damage, healing and attacking update. */
  datatype Stats = Stats(vida: int, estaVivo: bool, mana: int)

  function VidaMaxima(k: Kind): int {
    match k
    case Guerrero => 150
    case Mago => 80
  }

  function Ataque(k: Kind): int {
    match k
    case Guerrero => 30
    case Mago => 40
  }

  function CuracionBase(k: Kind): int {
    match k
    case Guerrero => 10
    case Mago => 15
  }

  /** Mana a Mago starts with; a Guerrero has none (modelled as 0, never touched). */
  const ManaInicial: int := 100
  /** Mana an attack spell costs a Mago. */
  const CosteHechizo: int := 10
  /** Mana a healing spell costs a Mago. */
  const CosteCuracion: int := 5

  function Min(a: int, b: int): int {
    if a <= b then a else b
  }

  /** The state a freshly built character of kind `k` starts in. */
  function Inicial(k: Kind): Stats {
    Stats(VidaMaxima(k), true, if k == Mago then ManaInicial else 0)
  }

  /**
   * Holds of every character at every moment, whatever amounts it is hit
   * with: vida is never negative, a character is alive exactly while it has
   * vida left, and mana is never negative (and stays 0 for a Guerrero).
   */
  predicate Sane(k: Kind, s: Stats) {
    && 0 <= s.vida
    && (s.estaVivo <==> 0 < s.vida)
    && 0 <= s.mana
    && (k == Guerrero ==> s.mana == 0)
  }

  /** Sane, and vida within the kind's maximum. */
  predicate Bounded(k: Kind, s: Stats) {
    Sane(k, s) && s.vida <= VidaMaxima(k)
  }

  /**
   * recibir_danio: a defeated character ignores the blow; a live one loses
   * the amount, and falls (vida clamped to 0) when nothing is left.
   */
  function Damage(s: Stats, cantidad: int): (r: Stats)
    ensures !s.estaVivo ==> r == s
    ensures r.mana == s.mana
    ensures r.estaVivo ==> s.estaVivo
    ensures s.estaVivo ==> (r.estaVivo <==> cantidad < s.vida)
    ensures r.estaVivo ==> r.vida == s.vida - cantidad
    ensures s.estaVivo && !r.estaVivo ==> r.vida == 0
  {
    if !s.estaVivo then s
    else if s.vida - cantidad <= 0 then s.(vida := 0, estaVivo := false)
    else s.(vida := s.vida - cantidad)
  }

  /**
   * curar: a defeated character cannot heal; a Guerrero heals by
   * curacion_base + 5, a Mago by curacion_base + 10 for 5 mana (and not at
   * all without it); vida is capped at the kind's maximum.
   */
  function Heal(k: Kind, s: Stats): (r: Stats)
    ensures !s.estaVivo ==> r == s
    ensures r.estaVivo == s.estaVivo
    ensures r.mana == s.mana || (k == Mago && r.mana == s.mana - CosteCuracion)
    ensures s.vida <= VidaMaxima(k) ==> s.vida <= r.vida <= VidaMaxima(k)
  {
    if !s.estaVivo then s
    else match k
      case Guerrero =>
        s.(vida := Min(VidaMaxima(k), s.vida + (CuracionBase(k) + 5)))
      case Mago =>
        if s.mana >= CosteCuracion then
          s.(vida := Min(VidaMaxima(k), s.vida + (CuracionBase(k) + 10)), mana := s.mana - CosteCuracion)
        else s
  }

  /** Whether an attack goes through: both alive and, for a Mago, mana for the spell. */
  predicate Strikes(k: Kind, atacante: Stats, objetivo: Stats) {
    atacante.estaVivo && objetivo.estaVivo && (k == Mago ==> atacante.mana >= CosteHechizo)
  }

  /** What an attack that goes through costs the attacker: a Mago pays for the spell. */
  function Cast(k: Kind, s: Stats): Stats {
    if k == Mago then s.(mana := s.mana - CosteHechizo) else s
  }

  /**
   * atacar against a different character: the attacker and the target
   * afterwards. Only the target's vida and liveness and the attacker's mana
   * can change.
   */
  function Attack(k: Kind, atacante: Stats, objetivo: Stats): (r: (Stats, Stats))
    ensures !Strikes(k, atacante, objetivo) ==> r == (atacante, objetivo)
    ensures r.0.vida == atacante.vida && r.0.estaVivo == atacante.estaVivo
    ensures r.1.mana == objetivo.mana
    ensures Strikes(k, atacante, objetivo) ==> r.1 == Damage(objetivo, Ataque(k))
  {
    if Strikes(k, atacante, objetivo) then (Cast(k, atacante), Damage(objetivo, Ataque(k)))
    else (atacante, objetivo)
  }

  /**
   * atacar with the character itself as the target: it takes its own blow
   * and, as a Mago, pays for the spell afterwards, even when the blow has
   * just defeated it.
   */
  function AttackSelf(k: Kind, s: Stats): (r: Stats)
    ensures !Strikes(k, s, s) ==> r == s
    ensures Strikes(k, s, s) ==> (r.estaVivo <==> Ataque(k) < s.vida)
    ensures Strikes(k, s, s) && r.estaVivo ==> r.vida == s.vida - Ataque(k)
    ensures Strikes(k, s, s) && !r.estaVivo ==> r.vida == 0
    ensures Strikes(k, s, s) ==> r.mana == s.mana - (if k == Mago then CosteHechizo else 0)
  {
    if Strikes(k, s, s) then Cast(k, Damage(s, Ataque(k))) else s
  }

  /** A Mago that defeats itself with its own spell still pays its 10 mana. */
  lemma MagoPaysForOwnDefeat()
    ensures AttackSelf(Mago, Stats(30, true, 10)) == Stats(0, false, 0)
  {
  }

  /** A fresh Guerrero has 150 vida and no mana; a fresh Mago has 80 vida and 100 mana. */
  lemma FreshStats()
    ensures Inicial(Guerrero) == Stats(150, true, 0) && Bounded(Guerrero, Inicial(Guerrero))
    ensures Inicial(Mago) == Stats(80, true, 100) && Bounded(Mago, Inicial(Mago))
  {
  }

  /** A live Guerrero heals by 15 points, up to 150. */
  lemma GuerreroHealAmount(s: Stats)
    requires s.estaVivo
    ensures Heal(Guerrero, s) == s.(vida := Min(150, s.vida + 15))
  {
  }

  /** A live Mago with 5 mana heals by 25 points, up to 80, for 5 mana; with less it does nothing. */
  lemma MagoHealAmount(s: Stats)
    requires s.estaVivo
    ensures s.mana >= 5 ==> Heal(Mago, s) == s.(vida := Min(80, s.vida + 25), mana := s.mana - 5)
    ensures s.mana < 5 ==> Heal(Mago, s) == s
  {
  }

  /** A live Guerrero deals 30 to a live target and is itself unchanged; nothing happens to a defeated target. */
  lemma GuerreroStrikeAmount(atacante: Stats, objetivo: Stats)
    requires atacante.estaVivo
    ensures objetivo.estaVivo ==> Attack(Guerrero, atacante, objetivo) == (atacante, Damage(objetivo, 30))
    ensures !objetivo.estaVivo ==> Attack(Guerrero, atacante, objetivo) == (atacante, objetivo)
  {
  }

  /**
   * A live Mago with 10 mana deals 40 to a live target and pays 10 mana;
   * with less mana neither character changes.
   */
  lemma MagoStrikeAmount(atacante: Stats, objetivo: Stats)
    requires atacante.estaVivo && objetivo.estaVivo
    ensures atacante.mana >= 10 ==>
      Attack(Mago, atacante, objetivo) == (atacante.(mana := atacante.mana - 10), Damage(objetivo, 40))
    ensures atacante.mana < 10 ==> Attack(Mago, atacante, objetivo) == (atacante, objetivo)
  {
  }

  // ---------------------------------------------------------------------------
  // A character's life as a sequence of events

  /**
   * Something that happens to one character: it is hit, it heals, it attacks
   * another character (alive or not), or it attacks itself.
   */
  datatype Event = Golpe(cantidad: int) | Cura | Ataca(objetivoVivo: bool) | AtacaASiMismo

  function Step(k: Kind, s: Stats, e: Event): Stats {
    match e
    case Golpe(d) => Damage(s, d)
    case Cura => Heal(k, s)
    case Ataca(vivo) => if Strikes(k, s, Stats(1, vivo, 0)) then Cast(k, s) else s
    case AtacaASiMismo => AttackSelf(k, s)
  }

  function Run(k: Kind, s: Stats, events: seq<Event>): Stats
    decreases |events|
  {
    if events == [] then s else Run(k, Step(k, s, events[0]), events[1..])
  }

  /** No blow in `events` has a negative amount. */
  predicate NoNegativeBlow(events: seq<Event>) {
    forall i :: 0 <= i < |events| ==> (events[i].Golpe? ==> events[i].cantidad >= 0)
  }

  /** `n` blows of `cantidad` each. */
  function Blows(cantidad: int, n: nat): seq<Event> {
    seq(n, i => Golpe(cantidad))
  }

  /** The attacker's side of an attack is the own-event Ataca, whatever else the target holds. */
  lemma AttackIsAtacaEvent(k: Kind, atacante: Stats, objetivo: Stats)
    ensures Attack(k, atacante, objetivo).0 == Step(k, atacante, Ataca(objetivo.estaVivo))
  {
  }

  /** A defeated character never becomes alive again, and nothing about it changes. */
  lemma {:induction false} DefeatIsFinal(k: Kind, s: Stats, events: seq<Event>)
    requires !s.estaVivo
    ensures Run(k, s, events) == s
    decreases |events|
  {
    if events != [] {
      assert Step(k, s, events[0]) == s;
      DefeatIsFinal(k, s, events[1..]);
    }
  }

  /** Once defeated along the way, a character stays defeated to the end. */
  lemma {:induction false} NoResurrection(k: Kind, s: Stats, events: seq<Event>)
    ensures Run(k, s, events).estaVivo ==> s.estaVivo
    decreases |events|
  {
    if events != [] {
      NoResurrection(k, Step(k, s, events[0]), events[1..]);
    }
  }

  /** Every operation keeps a character sane, whatever amounts it is hit with. */
  lemma {:induction false} RunStaysSane(k: Kind, s: Stats, events: seq<Event>)
    requires Sane(k, s)
    ensures Sane(k, Run(k, s, events))
    ensures Run(k, s, events).mana <= s.mana
    decreases |events|
  {
    if events != [] {
      var t := Step(k, s, events[0]);
      assert Sane(k, t) && t.mana <= s.mana;
      RunStaysSane(k, t, events[1..]);
    }
  }

  /** Without negative blows, vida never exceeds the kind's maximum. */
  lemma {:induction false} RunStaysBounded(k: Kind, s: Stats, events: seq<Event>)
    requires Bounded(k, s)
    requires NoNegativeBlow(events)
    ensures Bounded(k, Run(k, s, events))
    decreases |events|
  {
    if events != [] {
      var t := Step(k, s, events[0]);
      assert events[0].Golpe? ==> events[0].cantidad >= 0;
      assert Bounded(k, t);
      assert NoNegativeBlow(events[1..]) by {
        forall i | 0 <= i < |events[1..]|
          ensures events[1..][i].Golpe? ==> events[1..][i].cantidad >= 0
        {
          assert events[1..][i] == events[i + 1];
        }
      }
      RunStaysBounded(k, t, events[1..]);
    }
  }

  /**
   * A live character hit `n` times by `cantidad > 0` is still alive exactly
   * when the total damage is below its vida, and then has lost exactly that
   * total; otherwise it is defeated with vida 0.
   */
  lemma {:induction false} BlowsToDefeat(k: Kind, s: Stats, cantidad: int, n: nat)
    requires Sane(k, s) && s.estaVivo && 0 < cantidad
    ensures var r := Run(k, s, Blows(cantidad, n));
      && (r.estaVivo <==> n * cantidad < s.vida)
      && (r.estaVivo ==> r.vida == s.vida - n * cantidad)
      && (!r.estaVivo ==> r.vida == 0)
    decreases n
  {
    if n > 0 {
      var t := Damage(s, cantidad);
      assert Blows(cantidad, n) == [Golpe(cantidad)] + Blows(cantidad, n - 1);
      assert Blows(cantidad, n)[1..] == Blows(cantidad, n - 1);
      assert n * cantidad == (n - 1) * cantidad + cantidad;
      if t.estaVivo {
        BlowsToDefeat(k, t, cantidad, n - 1);
      } else {
        DefeatIsFinal(k, t, Blows(cantidad, n - 1));
      }
    }
  }

  /** A fresh Mago survives two sword blows of a Guerrero and falls to the third. */
  lemma GuerreroDefeatsMagoInThree()
    ensures Run(Mago, Inicial(Mago), Blows(Ataque(Guerrero), 2)).estaVivo
    ensures !Run(Mago, Inicial(Mago), Blows(Ataque(Guerrero), 3)).estaVivo
  {
    BlowsToDefeat(Mago, Inicial(Mago), Ataque(Guerrero), 2);
    BlowsToDefeat(Mago, Inicial(Mago), Ataque(Guerrero), 3);
  }

  /** A fresh Guerrero survives three spells of a Mago and falls to the fourth. */
  lemma MagoDefeatsGuerreroInFour()
    ensures Run(Guerrero, Inicial(Guerrero), Blows(Ataque(Mago), 3)).estaVivo
    ensures !Run(Guerrero, Inicial(Guerrero), Blows(Ataque(Mago), 4)).estaVivo
  {
    BlowsToDefeat(Guerrero, Inicial(Guerrero), Ataque(Mago), 3);
    BlowsToDefeat(Guerrero, Inicial(Guerrero), Ataque(Mago), 4);
  }

  /** `n` attacks on live targets. */
  function Spells(n: nat): seq<Event> {
    seq(n, i => Ataca(true))
  }

  /**
   * A live Mago attacking live targets pays 10 mana per spell until it can no
   * longer afford one; from then on its attacks do nothing. So a fresh Mago
   * (100 mana) has spent all of it after 10 attack spells.
   */
  lemma {:induction false} SpellBudget(s: Stats, n: nat)
    requires s.estaVivo && 0 <= s.mana
    ensures Run(Mago, s, Spells(n)).mana ==
      if n * CosteHechizo <= s.mana then s.mana - n * CosteHechizo
      else s.mana % CosteHechizo
    decreases n
  {
    if n > 0 {
      assert Spells(n)[1..] == Spells(n - 1);
      var t := Step(Mago, s, Ataca(true));
      assert n * CosteHechizo == (n - 1) * CosteHechizo + CosteHechizo;
      if s.mana >= CosteHechizo {
        assert t == s.(mana := s.mana - CosteHechizo);
        assert (s.mana - CosteHechizo) % CosteHechizo == s.mana % CosteHechizo;
        SpellBudget(t, n - 1);
      } else {
        assert t == s;
        SpellsWithoutMana(s, n - 1);
      }
    }
  }

  /** Without mana for a spell, a Mago's attacks change nothing about it. */
  lemma {:induction false} SpellsWithoutMana(s: Stats, n: nat)
    requires s.mana < CosteHechizo
    ensures Run(Mago, s, Spells(n)) == s
    decreases n
  {
    if n > 0 {
      assert Spells(n)[1..] == Spells(n - 1);
      SpellsWithoutMana(s, n - 1);
    }
  }

  // ---------------------------------------------------------------------------
  // The factory

  /** Lower-casing of one character, restricted to ASCII letters. */
  function AsciiLower(c: char): char {
    if 'A' <= c <= 'Z' then (c as int + 32) as char else c
  }

  /**
   * ASCII lower-casing: no capital is left, every other character is kept,
   * and each capital becomes the small letter at the same place in the
   * alphabet.
   */
  function Lower(s: string): (r: string)
    ensures |r| == |s|
    ensures forall i :: 0 <= i < |r| ==> !('A' <= r[i] <= 'Z')
    ensures forall i :: 0 <= i < |s| && !('A' <= s[i] <= 'Z') ==> r[i] == s[i]
    ensures forall i :: 0 <= i < |s| && 'A' <= s[i] <= 'Z' ==>
      'a' <= r[i] <= 'z' && r[i] as int - 'a' as int == s[i] as int - 'A' as int
  {
    seq(|s|, i requires 0 <= i < |s| => AsciiLower(s[i]))
  }

  /** `a` and `b` spell the same word when case is ignored. */
  predicate SameIgnoringCase(a: string, b: string) {
    |a| == |b| && forall i :: 0 <= i < |a| ==> AsciiLower(a[i]) == AsciiLower(b[i])
  }

  /**
   * crear_personaje's dispatch: which kind a type name asks for. It
   * recognises exactly the names that read "guerrero" or "mago" when case is
   * ignored, and nothing else.
   */
  function KindNamed(tipo: string): (r: Option<Kind>)
    ensures r == Some(Guerrero) <==> SameIgnoringCase(tipo, "guerrero")
    ensures r == Some(Mago) <==> SameIgnoringCase(tipo, "mago")
    ensures r == None <==> !SameIgnoringCase(tipo, "guerrero") && !SameIgnoringCase(tipo, "mago")
  {
    LowerMatches(tipo, "guerrero");
    LowerMatches(tipo, "mago");
    var t := Lower(tipo);
    if t == "guerrero" then Some(Guerrero)
    else if t == "mago" then Some(Mago)
    else None
  }

  lemma LowerOfLowercase(w: string)
    requires forall i :: 0 <= i < |w| ==> !('A' <= w[i] <= 'Z')
    ensures Lower(w) == w
  {
  }

  lemma LowerMatches(tipo: string, w: string)
    requires forall i :: 0 <= i < |w| ==> !('A' <= w[i] <= 'Z')
    ensures Lower(tipo) == w <==> SameIgnoringCase(tipo, w)
  {
    LowerOfLowercase(w);
    if SameIgnoringCase(tipo, w) {
      assert forall i :: 0 <= i < |w| ==> Lower(tipo)[i] == w[i];
    }
  }

  /** Lower-casing twice is lower-casing once. */
  lemma LowerIdempotent(s: string)
    ensures Lower(Lower(s)) == Lower(s)
  {
    LowerOfLowercase(Lower(s));
  }

  /** The class names themselves, in any case, build their own kind. */
  lemma KindNamedAcceptsClassNames()
    ensures KindNamed("Guerrero") == Some(Guerrero) && KindNamed("GUERRERO") == Some(Guerrero)
    ensures KindNamed("Mago") == Some(Mago) && KindNamed("mAgO") == Some(Mago)
    ensures KindNamed("Arquero") == None && KindNamed("") == None
  {
  }

  /** Two names that differ only in case ask for the same kind. */
  lemma KindNamedCaseInsensitive(a: string, b: string)
    requires SameIgnoringCase(a, b)
    ensures KindNamed(a) == KindNamed(b)
  {
    assert Lower(a) == Lower(b);
  }

  // ---------------------------------------------------------------------------
  // Characters as objects

  /**
   * A character. Guerrero and Mago share the abstract base class's fields and
   * its damage rule; `kind` says which subclass built it. A Guerrero's mana
   * stays 0.
   */
  class Personaje {
    const nombre: string
    const kind: Kind
    const vidaMaxima: int
    const ataque: int
    const curacionBase: int
    var vida: int
    var estaVivo: bool
    var mana: int

    function State(): Stats
      reads this
    {
      Stats(vida, estaVivo, mana)
    }

    /** The constants match the kind, and the state is sane. */
    ghost predicate Valid()
      reads this
    {
      && vidaMaxima == VidaMaxima(kind)
      && ataque == Ataque(kind)
      && curacionBase == CuracionBase(kind)
      && Sane(kind, State())
    }

    constructor Guerrero(nombre: string)
      ensures Valid() && kind == Kind.Guerrero && this.nombre == nombre
      ensures State() == Inicial(Kind.Guerrero)
    {
      this.nombre := nombre;
      kind := Kind.Guerrero;
      vidaMaxima := 150;
      ataque := 30;
      curacionBase := 10;
      vida := 150;
      estaVivo := true;
      mana := 0;
    }

    constructor Mago(nombre: string)
      ensures Valid() && kind == Kind.Mago && this.nombre == nombre
      ensures State() == Inicial(Kind.Mago)
    {
      this.nombre := nombre;
      kind := Kind.Mago;
      vidaMaxima := 80;
      ataque := 40;
      curacionBase := 15;
      vida := 80;
      estaVivo := true;
      mana := 100;
    }

    method RecibirDanio(cantidad: int)
      requires Valid()
      modifies this
      ensures Valid()
      ensures State() == Damage(old(State()), cantidad)
    {
      if !estaVivo {
        return;
      }
      vida := vida - cantidad;
      if vida <= 0 {
        vida := 0;
        estaVivo := false;
      }
    }

    method Curar()
      requires Valid()
      modifies this
      ensures Valid()
      ensures State() == Heal(kind, old(State()))
    {
      if !estaVivo {
        return;
      }
      if kind == Kind.Guerrero {
        var curacionReal := curacionBase + 5;
        vida := Min(vidaMaxima, vida + curacionReal);
      } else if mana >= CosteCuracion {
        var curacionReal := curacionBase + 10;
        vida := Min(vidaMaxima, vida + curacionReal);
        mana := mana - CosteCuracion;
      }
    }

    method Atacar(objetivo: Personaje)
      requires Valid() && objetivo.Valid()
      modifies this, objetivo
      ensures Valid() && objetivo.Valid()
      ensures objetivo != this ==>
        (State(), objetivo.State()) == Attack(kind, old(State()), old(objetivo.State()))
      ensures objetivo == this ==> State() == AttackSelf(kind, old(State()))
    {
      if !estaVivo {
        return;
      }
      if !objetivo.estaVivo {
        return;
      }
      if kind == Kind.Guerrero {
        objetivo.RecibirDanio(ataque);
      } else if mana >= CosteHechizo {
        objetivo.RecibirDanio(ataque);
        mana := mana - CosteHechizo;
      }
    }
  }

  /** crear_personaje: a new character of the named kind, or null (None) for any other name. */
  method CrearPersonaje(tipo: string, nombre: string) returns (p: Personaje?)
    ensures p == null <==> KindNamed(tipo) == None
    ensures p != null ==> fresh(p) && p.Valid() && KindNamed(tipo) == Some(p.kind)
    ensures p != null ==> p.nombre == nombre && p.State() == Inicial(p.kind)
  {
    var t := Lower(tipo);
    if t == "guerrero" {
      p := new Personaje.Guerrero(nombre);
      return;
    }
    if t == "mago" {
      p := new Personaje.Mago(nombre);
      return;
    }
    p := null;
  }
}
