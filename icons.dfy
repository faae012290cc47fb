/**
 * The character's sprites. All of them are drawn at the map centre, stacked
 * by z-index; each is turned to face the pointer, and the action-linked
 * ones (the right hand and the pickaxe) are turned further by the swing
 * angle.
 */
module Icons {
  import opened Wrappers

  /** One sprite of the character; `size` is absent where the source gives none. */
  datatype Icon = Icon(name: string, icon: string, size: Option<int>, zIndex: int, isAction: bool)

  /** The character's sprites, in drawing-data order. */
  const CharacterIcons: seq<Icon> := [
    Icon("Character", "body", Some(128), 1, false),
    Icon("CharacterFace", "eyes", None, 4, false),
    Icon("CharacterLeftHand", "hand_left", Some(128), 3, false),
    Icon("CharacterRighHand", "hand_right", Some(128), 3, true),
    Icon("CharacterWeapon", "pickaxe", Some(128), 2, true)
  ]

  /** A sprite's position: the map centre, raised to the sprite's z-index. */
  datatype Position = Position(x: real, y: real, z: real)

  /** The rotation a sprite is drawn at: the pointer angle, plus the swing angle for action-linked sprites. */
  function IconAngle(mouseAngle: real, actionAngle: real, d: Icon): (r: real)
    ensures d.isAction ==> r - mouseAngle == actionAngle
    ensures !d.isAction ==> r == mouseAngle
  {
    mouseAngle + (if d.isAction then actionAngle else 0.0)
  }

  /** Exactly the right hand and the pickaxe follow the swing. */
  lemma ActionLinkedSprites()
    ensures forall i :: 0 <= i < |CharacterIcons| ==>
      (CharacterIcons[i].isAction <==> CharacterIcons[i].icon == "hand_right" || CharacterIcons[i].icon == "pickaxe")
  {
  }

  /** The body is drawn lowest and the face highest; the hands sit above the pickaxe. */
  lemma DrawOrder()
    ensures forall i :: 0 <= i < |CharacterIcons| ==> 1 <= CharacterIcons[i].zIndex <= 4
    ensures CharacterIcons[0].icon == "body" && CharacterIcons[0].zIndex == 1
    ensures CharacterIcons[1].icon == "eyes" && CharacterIcons[1].zIndex == 4
    ensures CharacterIcons[4].zIndex < CharacterIcons[2].zIndex == CharacterIcons[3].zIndex
  {
  }
}
