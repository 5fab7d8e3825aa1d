# Object-oriented exercises: a verified model

This project models the teaching scripts of a Python course on object-oriented programming that keep state with clear rules:

- **Combat** (`combat.dfy`, from `soluciones/ejercicio_22.py`): characters (`Personaje`) of two kinds, Guerrero and Mago. They take damage (`recibir_danio`), heal (`curar`) and attack one another (`atacar`). A factory (`FabricaPersonajes.crear_personaje`) builds a character from a type name, ignoring case. The specification functions (`Damage`, `Heal`, `Attack`, `AttackSelf`) work on a value `Stats(vida, estaVivo, mana)`. The class `Personaje` updates its fields in place, and its `State()` follows those functions. A character's whole life is a sequence of `Event`s, and lemmas about `Run` prove the lifetime properties:
  - defeat is final;
  - vida never goes negative, and mana never goes negative or rises;
  - vida stays within the kind's maximum;
  - the exact number of blows that defeats a character;
  - the mana budget of a Mago.
- **Iteration** (`iteration.dfy`, from `soluciones/ejercicio_29.py`): the counter `Contador` that iterates 1, 2, ..., limite. `Recorrer` is the `for` loop that consumes it, and is proved to yield exactly `Upto(limite)`.
- **Singleton** (`singleton.dfy`, from `soluciones/ejercicio_28.py`): the metaclass `SingletonMeta` with its class-level dictionary `_instancia` (get-or-create, one instance per class).
- **Employees** (`employees.dfy`, from `soluciones/ejercicio_11.py`): the record `Empleado` with getters and setters, and its subclass `Gerente` with a department.
- **Greeting** (`greeting.dfy`, from `soluciones/ejemplo_solucion.py`): `MiClase.saludar`, which returns `"Hola, " + nombre`.
- `wrappers.dfy` holds `Option`, which stands in for Python's `None`.

Design choices:

- Python's abstract base class `Personaje` and its subclasses `Guerrero` and `Mago` become one class, `Combat.Personaje`. A constant `kind` says which subclass built the object. The named constructors `Guerrero` and `Mago` perform the subclass constructor together with the base constructor it calls. A Guerrero has no mana in the source; in the model its `mana` field is 0 and nothing changes it.
- `Gerente` becomes a second constructor of `Employees.Empleado`. The constant `esGerente` marks objects built by it, and only those may use the department methods. A plain Empleado keeps `departamento == ""`.
- `recibir_danio` accepts any integer. A negative amount raises `vida`, and can raise it above `vida_maxima`. So the invariant kept for every input (`Sane`) is: `0 <= vida`, alive exactly while `vida > 0`, and `mana >= 0`. The upper bound (`Bounded`) is proved for lives without negative blows. The source's own attacks always deal 30 or 40.

## Model

| member | source | states |
|---|---|---|
| `Combat.Damage` | soluciones/ejercicio_22.py:52-70 | a defeated character is unchanged; a live one survives exactly when the amount is below its vida, and then loses exactly that amount; otherwise it falls with vida 0; mana is never touched and nobody is revived |
| `Combat.Heal` | soluciones/ejercicio_22.py:103-170 | a defeated character is unchanged; liveness never changes; mana is unchanged or (Mago only) drops by 5; from vida within the maximum, vida does not decrease and stays within the maximum |
| `Combat.Attack` | soluciones/ejercicio_22.py:87-151 | an attack that does not go through (a defeated attacker or target, or a Mago without 10 mana) changes neither character; one that does applies `Damage(target, Ataque(kind))` to the target; the attacker's vida and liveness and the target's mana never change |
| `Combat.AttackSelf` | soluciones/ejercicio_22.py:87-151 | a character attacking itself (`objetivo is self`) is unchanged unless the attack goes through; if it does, it survives exactly when its own ataque is below its vida, and then has lost exactly that much, otherwise it falls with vida 0; a Mago pays 10 mana either way, since the mana is taken after the blow |
| `Combat.AttackIsAtacaEvent` | soluciones/ejercicio_22.py:87-151 | the attacker's side of `Attack` is the event `Ataca` with the target's liveness, so the lemmas about event sequences (`Run`, `SpellBudget`, `SpellsWithoutMana`) cover what atacar does to the attacker |
| `Combat.MagoPaysForOwnDefeat` | soluciones/ejercicio_22.py:146-148 | a Mago with 30 vida and 10 mana that attacks itself ends defeated, with vida 0 and mana 0 |
| `Combat.FreshStats` | soluciones/ejercicio_22.py:83-130 | a fresh Guerrero has 150 vida and no mana, a fresh Mago 80 vida and 100 mana, and both start within their bounds |
| `Combat.GuerreroHealAmount` | soluciones/ejercicio_22.py:111-112 | a live Guerrero's curar sets vida to min(150, vida + 15) |
| `Combat.MagoHealAmount` | soluciones/ejercicio_22.py:161-170 | a live Mago with at least 5 mana sets vida to min(80, vida + 25) and pays 5 mana; with less mana nothing changes |
| `Combat.GuerreroStrikeAmount` | soluciones/ejercicio_22.py:95-101 | a live Guerrero deals exactly `recibir_danio(30)` to a live target and is itself unchanged; a defeated target is left alone |
| `Combat.MagoStrikeAmount` | soluciones/ejercicio_22.py:144-151 | a live Mago with at least 10 mana deals `recibir_danio(40)` and pays 10 mana; with less, neither character changes |
| `Combat.DefeatIsFinal` | soluciones/ejercicio_22.py:59-61 | for every sequence of events, a defeated character stays exactly as it is |
| `Combat.NoResurrection` | soluciones/ejercicio_22.py:63-67 | a character alive at the end of any sequence of events was alive at its start (esta_vivo is only set true by the constructor) |
| `Combat.RunStaysSane` | soluciones/ejercicio_22.py:63-67 | every sequence of events, with any amounts, keeps vida >= 0, alive exactly while vida > 0, and mana >= 0; mana never rises |
| `Combat.RunStaysBounded` | soluciones/ejercicio_22.py:111-112 | without negative blows, every sequence of events keeps vida within vida_maxima |
| `Combat.BlowsToDefeat` | soluciones/ejercicio_22.py:63-70 | after n blows of d > 0, a live character is alive exactly when n*d < vida, and then has vida - n*d; otherwise it is defeated with vida 0 |
| `Combat.GuerreroDefeatsMagoInThree` | soluciones/ejercicio_22.py:95-101 | a fresh Mago survives two sword blows and falls to the third |
| `Combat.MagoDefeatsGuerreroInFour` | soluciones/ejercicio_22.py:144-148 | a fresh Guerrero survives three spells and falls to the fourth |
| `Combat.SpellBudget` | soluciones/ejercicio_22.py:144-151 | after n attacks on live targets, a live Mago's mana is its mana minus 10n while it could afford them, and then stays at its remainder modulo 10; it never goes negative |
| `Combat.SpellsWithoutMana` | soluciones/ejercicio_22.py:150-151 | a Mago without mana for a spell is unchanged by any number of attacks |
| `Combat.Lower` | soluciones/ejercicio_22.py:191 | the lower-cased name has the same length and no capital letter left; every other character is kept, and each capital becomes the small letter at the same place in the alphabet |
| `Combat.LowerIdempotent` | soluciones/ejercicio_22.py:191 | lower-casing an already lower-cased name changes nothing |
| `Combat.KindNamed` | soluciones/ejercicio_22.py:191-196 | the factory's dispatch chooses Guerrero exactly for names equal to "guerrero" ignoring case, Mago exactly for "mago", and nothing (None) for every other name |
| `Combat.KindNamedAcceptsClassNames` | soluciones/ejercicio_22.py:186-195 | "Guerrero", "GUERRERO", "Mago" and "mAgO" choose their kind; "Arquero" and the empty name choose nothing |
| `Combat.KindNamedCaseInsensitive` | soluciones/ejercicio_22.py:191 | two names that differ only in case choose the same kind |
| `Combat.CrearPersonaje` | soluciones/ejercicio_22.py:182-196 | returns null (None) exactly when the name is neither kind; otherwise a new, valid character of the named kind with the given name in its initial state |
| `Combat.Personaje.Guerrero` | soluciones/ejercicio_22.py:76-85 | a new Guerrero: the given name, vida 150 = vida_maxima, ataque 30, curacion_base 10, alive |
| `Combat.Personaje.Mago` | soluciones/ejercicio_22.py:121-131 | a new Mago: the given name, vida 80 = vida_maxima, ataque 40, curacion_base 15, mana 100, alive |
| `Combat.Personaje.RecibirDanio` | soluciones/ejercicio_22.py:52-70 | updates the fields in place so that the new state is `Damage` of the old one; keeps the object invariant |
| `Combat.Personaje.Curar` | soluciones/ejercicio_22.py:103-170 | the new state is `Heal` of the old one; keeps the object invariant |
| `Combat.Personaje.Atacar` | soluciones/ejercicio_22.py:87-151 | against another character, both new states are `Attack` of the old ones; against itself, the new state is `AttackSelf` of the old one; both objects keep the invariant |
| `Iteration.Upto` | soluciones/ejercicio_29.py:13-18 | the sequence 1, 2, ..., n: length n (0 when n <= 0) and element i is i + 1 |
| `Iteration.Contador.constructor` | soluciones/ejercicio_29.py:6-8 | stores limite unchanged and starts at actual == 0 |
| `Iteration.Contador.Iter` | soluciones/ejercicio_29.py:10-11 | returns the counter itself and changes nothing |
| `Iteration.Contador.Next` | soluciones/ejercicio_29.py:13-18 | below the limit, increments actual by 1 and returns the new value; at or past it, returns None (StopIteration) and leaves actual unchanged, so exhaustion is permanent; keeps 0 <= actual <= limite (actual 0 when limite <= 0) |
| `Iteration.Recorrer` | soluciones/ejercicio_29.py:20-22 | iterating a fresh `Contador(limite)` until it stops yields exactly 1, 2, ..., limite, and nothing when limite <= 0 |
| `Singleton.SingletonMeta.constructor` | soluciones/ejercicio_28.py:9 | the registry starts empty |
| `Singleton.SingletonMeta.Call` | soluciones/ejercicio_28.py:11-20 | a class without an entry gets one new instance, built with the given arguments and stored under it; a class with an entry gets the stored instance and the registry is unchanged; no entry is ever replaced or removed |
| `Singleton.SingletonMeta.CallTwice` | soluciones/ejercicio_28.py:30-34 | two calls of the same class return the identical object; the second call's arguments are ignored; the registry only grows |
| `Singleton.Demo` | soluciones/ejercicio_28.py:27-34 | `a = Misingleton(); b = Misingleton()` gives `a is b` |
| `Employees.Empleado.constructor` | soluciones/ejercicio_11.py:28-40 | stores nombre and salario exactly as given |
| `Employees.Empleado.Gerente` | soluciones/ejercicio_11.py:88-102 | sets nombre and salario as Empleado does and stores departamento |
| `Employees.Empleado.GetNombre` | soluciones/ejercicio_11.py:42-47 | returns the stored name |
| `Employees.Empleado.SetNombre` | soluciones/ejercicio_11.py:49-54 | stores the new name and may change no other field |
| `Employees.Empleado.GetSalario` | soluciones/ejercicio_11.py:56-61 | returns the stored salary |
| `Employees.Empleado.SetSalario` | soluciones/ejercicio_11.py:63-68 | stores the new salary and may change no other field |
| `Employees.Empleado.GetDepartamento` | soluciones/ejercicio_11.py:104-109 | returns a manager's stored department |
| `Employees.Empleado.SetDepartamento` | soluciones/ejercicio_11.py:111-116 | stores a manager's new department and may change no other field |
| `Employees.SetThenGet` | soluciones/ejercicio_11.py:42-68 | after setting a name and then a salary, the getters return both, and the department is untouched |
| `Employees.NewGerenteReadsBack` | soluciones/ejercicio_11.py:88-116 | a new manager's three getters return what it was built with |
| `Greeting.MiClase.Saludar` | soluciones/ejemplo_solucion.py:17-24 | the greeting starts with "Hola, ", ends with the name, and is 6 characters longer than the name |
| `Greeting.NombreSaludado` | soluciones/ejemplo_solucion.py:24 | recovers a name exactly from strings that start with "Hola, ", and the greeting of what it recovers is the input |
| `Greeting.SaludarRoundTrip` | soluciones/ejemplo_solucion.py:24 | the name is always recovered from its greeting |
| `Greeting.SaludarInjective` | soluciones/ejemplo_solucion.py:24 | different names get different greetings |

## Left out

- All `print` calls: the console messages of every method, and the printing `for` loop body in `soluciones/ejercicio_29.py` (the model collects the values instead).
- `scripts/github_automation.py` is not part of this model. It is network code over a GitHub client library, with environment variables, files and random assignee choice.
- The shape-area scripts (`abstractclass.py`, `ejercicio_10.py`, `soluciones/ejercicio_10.py`) are not part of this model: they are floating-point arithmetic with `math.pi`.
- `soluciones/ejercicio26.py` and `soluciones/Ejercicio26.py` are not part of this model: their point is Python's attribute protocol (`__slots__`, read-only properties). `ejercicio_1.py` is an empty class.
- Combat.Lower: lower-cases ASCII letters 'A'..'Z' only, where Python's `str.lower()` folds all of Unicode: `"É"` stays `"É"` here, and `"İ"` becomes two characters in Python but keeps its length here.
- Combat.KindNamed: lower-cases ASCII letters only, where Python's `str.lower()` folds all of Unicode. The only other characters that lower-case to an ASCII letter are the Kelvin sign and the capital I with dot above. Neither spells a letter of "guerrero" or "mago", so the same names are accepted.
- Combat.Personaje: the abstract base class and its abstract methods are not a separate type; `kind` selects each subclass's behaviour. A Guerrero's `mana` field does not exist in the source.
- Combat: the fields `nombre`, `ataque`, `curacion_base` and `vida_maxima` are constants. Python lets callers reassign them, but no modelled operation does.
- Iteration.Contador: `limite` is a constant. Python lets callers reassign `self.limite`, but no modelled operation does.
- Singleton: the metaclass machinery (`type.__call__`, `super().__call__`) is left out. Classes are identified by name, and the constructor a class would run is modelled as building an `Instancia` that records its arguments. Python's `*args, **kwargs` become a sequence of strings.
- Employees: Python does not check the types of the stored values; here nombre and departamento are strings and salario is a `real` (the source documents a float; the model only stores and returns it, so no rounding arises).
