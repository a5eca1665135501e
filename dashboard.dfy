/** The front end's dashboard lookups: the badge icon by name, the rarity
    gradient, the earned-badge count and the two compliance colourings, which
    follow the same 90/85/75 tiers as the grade classifier. */
module Dashboard {
  import opened Models
  import opened Grading
  import Mock

  // ---------------------------------------------------------------------------
  // Badge icons
  // ---------------------------------------------------------------------------

  datatype Icon = Trophy | Shield | Star | Moon | Target | Code

  /** The key under which the icon table lists each icon. */
  function IconKey(icon: Icon): string {
    match icon
    case Trophy => "trophy"
    case Shield => "shield"
    case Star => "star"
    case Moon => "moon"
    case Target => "target"
    case Code => "code"
  }

  /** The own entries of the `icons` table. */
  const IconTable: map<string, Icon> :=
    map["trophy" := Trophy, "shield" := Shield, "star" := Star,
        "moon" := Moon, "target" := Target, "code" := Code]

  /** `getBadgeIcon` as intended: the table's icon for one of its six names,
      Trophy for every other name. */
  function BadgeIcon(name: string): (icon: Icon)
    ensures name in IconTable ==> icon == IconTable[name]
    ensures name !in IconTable ==> icon == Trophy
  {
    if name in IconTable then IconTable[name] else Trophy
  }

  /** Every icon is found again under its own key, and the table holds no
      other key. */
  lemma BadgeIconRoundTrip(icon: Icon)
    ensures IconKey(icon) in IconTable && BadgeIcon(IconKey(icon)) == icon
  {
  }

  lemma IconTableKeys()
    ensures IconTable.Keys == set icon: Icon | true :: IconKey(icon)
  {
    var keys := set icon: Icon | true :: IconKey(icon);
    assert IconKey(Trophy) in keys && IconKey(Shield) in keys && IconKey(Star) in keys;
    assert IconKey(Moon) in keys && IconKey(Target) in keys && IconKey(Code) in keys;
  }

  /** A name that is not one of the six keys, including the empty name and a
      key written in another case, gets the Trophy. */
  lemma UnknownNameIsTrophy(name: string)
    requires forall icon: Icon :: name != IconKey(icon)
    ensures BadgeIcon(name) == Trophy
  {
    assert name != IconKey(Trophy) && name != IconKey(Shield) && name != IconKey(Star);
    assert name != IconKey(Moon) && name != IconKey(Target) && name != IconKey(Code);
  }

  /** The names that every plain JavaScript object inherits from Object.prototype. */
  const InheritedNames: set<string> := {
    "constructor", "toString", "toLocaleString", "valueOf", "hasOwnProperty",
    "isPrototypeOf", "propertyIsEnumerable", "__proto__", "__defineGetter__",
    "__defineSetter__", "__lookupGetter__", "__lookupSetter__"
  }

  /** What `icons[iconName] || Trophy` evaluates to: an icon component, or a
      member inherited from Object.prototype, which is truthy and so is returned
      in place of a component. */
  datatype Rendered = IconComponent(icon: Icon) | NotAnIcon(member: string)

  /** `getBadgeIcon` as written: the table is a plain object, so an inherited
      name finds a prototype member and the `|| Trophy` fallback is skipped. */
  function BadgeIconAsWritten(name: string): (r: Rendered)
    ensures r.NotAnIcon? <==> name in InheritedNames
  {
    if name in IconTable then IconComponent(IconTable[name])
    else if name in InheritedNames then NotAnIcon(name)
    else IconComponent(Trophy)
  }

  /** The two agree on every name that is not inherited from Object.prototype. */
  lemma AsWrittenAgreesElsewhere(name: string)
    requires name !in InheritedNames
    ensures BadgeIconAsWritten(name) == IconComponent(BadgeIcon(name))
  {
  }

  /** The badge named "toString" escapes the fallback: the code as written hands
      back Object.prototype.toString, where the Trophy was meant. */
  lemma InheritedNameEscapesFallback()
    ensures BadgeIconAsWritten("toString") == NotAnIcon("toString")
    ensures BadgeIcon("toString") == Trophy
  {
    assert "toString" in InheritedNames;
  }

  /** Every mock badge names one of the six icons. */
  lemma MockBadgeIconsKnown()
    ensures forall i :: 0 <= i < |Mock.Badges| ==> Mock.Badges[i].icon in IconTable
  {
  }

  // ---------------------------------------------------------------------------
  // Rarity gradient
  // ---------------------------------------------------------------------------

  const CommonGradient := "from-gray-400 to-gray-500"

  /** `getRarityColor`: one gradient for each of legendary, epic and rare; the
      common gradient for "common" and for every other rarity. */
  function RarityColour(rarity: string): (colour: string)
    ensures rarity == "legendary" ==> colour == "from-yellow-400 to-orange-400"
    ensures rarity == "epic" ==> colour == "from-purple-400 to-pink-400"
    ensures rarity == "rare" ==> colour == "from-blue-400 to-cyan-400"
    ensures colour == CommonGradient <==> rarity !in {"legendary", "epic", "rare"}
  {
    match rarity
    case "legendary" => "from-yellow-400 to-orange-400"
    case "epic" => "from-purple-400 to-pink-400"
    case "rare" => "from-blue-400 to-cyan-400"
    case "common" => CommonGradient
    case _ => CommonGradient
  }

  /** An unknown rarity looks exactly like a common one. */
  lemma UnknownRarityIsCommon(rarity: string)
    requires rarity !in {"legendary", "epic", "rare", "common"}
    ensures RarityColour(rarity) == RarityColour("common")
  {
  }

  // ---------------------------------------------------------------------------
  // Earned badges
  // ---------------------------------------------------------------------------

  /** `badges.filter(b => b.earned).length`. */
  function EarnedCount(badges: seq<Badge>): (n: nat)
    ensures n <= |badges|
  {
    if badges == [] then 0
    else EarnedCount(badges[..|badges| - 1]) + (if badges[|badges| - 1].earned then 1 else 0)
  }

  /** All badges count exactly when every one is earned, and none count
      exactly when none is. */
  lemma {:induction false} EarnedCountExtremes(badges: seq<Badge>)
    ensures EarnedCount(badges) == |badges| <==> forall i :: 0 <= i < |badges| ==> badges[i].earned
    ensures EarnedCount(badges) == 0 <==> forall i :: 0 <= i < |badges| ==> !badges[i].earned
  {
    if badges != [] {
      var n := |badges| - 1;
      var init := badges[..n];
      EarnedCountExtremes(init);
      assert forall i :: 0 <= i < n ==> init[i] == badges[i];
    }
  }

  /** The dashboard's mock badges show four earned. */
  lemma MockBadgesEarned()
    ensures EarnedCount(Mock.Badges) == 4
  {
    var b := Mock.Badges;
    assert b[..1][..0] == [];
    assert EarnedCount(b[..1]) == 1;
    assert b[..2][..1] == b[..1];
    assert EarnedCount(b[..2]) == 2;
    assert b[..3][..2] == b[..2];
    assert EarnedCount(b[..3]) == 3;
    assert b[..4][..3] == b[..3];
    assert EarnedCount(b[..4]) == 3;
    assert b[..5][..4] == b[..4];
    assert EarnedCount(b[..5]) == 4;
    assert b[..|b| - 1] == b[..5];
  }

  // ---------------------------------------------------------------------------
  // Compliance colours
  // ---------------------------------------------------------------------------

  /** The text colour of each tier. */
  function TextColourOf(s: Status): string {
    match s
    case Excellent => "text-green-400"
    case OnTrack => "text-blue-400"
    case AtRisk => "text-yellow-400"
    case Critical => "text-red-400"
  }

  /** The progress-bar gradient of each tier. */
  function BarColourOf(s: Status): string {
    match s
    case Excellent => "bg-gradient-to-r from-green-400 to-emerald-400"
    case OnTrack => "bg-gradient-to-r from-blue-400 to-cyan-400"
    case AtRisk => "bg-gradient-to-r from-yellow-400 to-orange-400"
    case Critical => "bg-gradient-to-r from-red-400 to-orange-400"
  }

  /** The nested ternary on a subject's compliance for the text colour: it is
      the colour of the compliance's tier. */
  function ComplianceTextColour(compliance: real): (colour: string)
    ensures colour == TextColourOf(Tier(compliance))
  {
    if compliance >= 90.0 then "text-green-400"
    else if compliance >= 85.0 then "text-blue-400"
    else if compliance >= 75.0 then "text-yellow-400"
    else "text-red-400"
  }

  /** The nested ternary on a subject's compliance for the progress bar: it is
      the gradient of the compliance's tier. */
  function ComplianceBarColour(compliance: real): (colour: string)
    ensures colour == BarColourOf(Tier(compliance))
  {
    if compliance >= 90.0 then "bg-gradient-to-r from-green-400 to-emerald-400"
    else if compliance >= 85.0 then "bg-gradient-to-r from-blue-400 to-cyan-400"
    else if compliance >= 75.0 then "bg-gradient-to-r from-yellow-400 to-orange-400"
    else "bg-gradient-to-r from-red-400 to-orange-400"
  }

  /** Each colouring tells the four tiers apart. */
  lemma ColouringsDistinguishTiers(s: Status, t: Status)
    ensures TextColourOf(s) == TextColourOf(t) <==> s == t
    ensures BarColourOf(s) == BarColourOf(t) <==> s == t
  {
  }

  /** The text and the bar always agree: two subjects share a text colour
      exactly when they share a bar colour, namely when they share a tier. */
  lemma ColoursAgree(a: real, b: real)
    ensures ComplianceTextColour(a) == ComplianceTextColour(b) <==> Tier(a) == Tier(b)
    ensures ComplianceBarColour(a) == ComplianceBarColour(b) <==> Tier(a) == Tier(b)
  {
    ColouringsDistinguishTiers(Tier(a), Tier(b));
  }
}
