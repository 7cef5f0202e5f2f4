/** The real-world-asset page: a list of assets and a modal form that appends one. */
module Rwa {
  import opened Wrappers

  const FillAllFields := "Please fill in all fields"
  const NoAssetsYet := "No assets yet. Click the + button to add your first asset."

  /** One row of the asset list; amount, yield and value are display text. */
  datatype Asset = Asset(id: int, name: string, amount: string, yieldText: string, value: string)

  /** The modal's three inputs. */
  datatype NewAsset = NewAsset(name: string, amount: string, yieldText: string)

  const EmptyNewAsset := NewAsset("", "", "")

  /** The list the page starts with. */
  const InitialAssets := [
    Asset(1, "US Treasury Bond", "10,000", "4.2%", "10,250"),
    Asset(2, "Corporate Bond ETF", "5,000", "5.8%", "5,120"),
    Asset(3, "Real Estate Fund", "15,000", "7.1%", "15,600")
  ]

  /** The input's `name` attribute. */
  datatype Field = Name | Amount | Yield

  function Get(f: NewAsset, field: Field): string {
    match field
    case Name => f.name
    case Amount => f.amount
    case Yield => f.yieldText
  }

  /** `{ ...newAsset, [name]: value }`: the named input takes the value, the others keep theirs. */
  function WithField(f: NewAsset, field: Field, value: string): (r: NewAsset)
    ensures Get(r, field) == value
    ensures forall other :: other != field ==> Get(r, other) == Get(f, other)
  {
    match field
    case Name => f.(name := value)
    case Amount => f.(amount := value)
    case Yield => f.(yieldText := value)
  }

  /** `Math.max(...assets.map(a => a.id))` for a non-empty list. */
  function MaxId(assets: seq<Asset>): (m: int)
    requires |assets| > 0
    ensures forall i :: 0 <= i < |assets| ==> assets[i].id <= m
    ensures exists i :: 0 <= i < |assets| && assets[i].id == m
  {
    if |assets| == 1 then assets[0].id
    else
      var rest := MaxId(assets[1..]);
      assert forall i :: 1 <= i < |assets| ==> assets[i] == assets[1..][i - 1];
      if assets[0].id >= rest then assets[0].id else rest
  }

  /** The id a new asset gets: one past the largest id, or 1 for an empty list. */
  function NewId(assets: seq<Asset>): int {
    if |assets| > 0 then MaxId(assets) + 1 else 1
  }

  /** The new id is larger than, hence different from, every id already in the list. */
  lemma NewIdFresh(assets: seq<Asset>)
    ensures forall i :: 0 <= i < |assets| ==> assets[i].id < NewId(assets)
  {
  }

  predicate DistinctIds(assets: seq<Asset>) {
    forall i, j :: 0 <= i < j < |assets| ==> assets[i].id != assets[j].id
  }

  /** Appending an asset with the new id keeps the ids distinct. */
  lemma AppendKeepsDistinct(assets: seq<Asset>, a: Asset)
    requires DistinctIds(assets) && a.id == NewId(assets)
    ensures DistinctIds(assets + [a])
  {
    NewIdFresh(assets);
    var s := assets + [a];
    forall i, j | 0 <= i < j < |s| ensures s[i].id != s[j].id {
      if j == |assets| {
        assert s[i] == assets[i];
      } else {
        assert s[i] == assets[i] && s[j] == assets[j];
      }
    }
  }

  /** The list panel: the placeholder, or a table of the assets in order. */
  datatype ListView = Placeholder(text: string) | Table(rows: seq<Asset>)

  /** What the page shows for a list: the asset count, and the list panel. */
  datatype View = View(count: nat, list: ListView)

  function Shown(assets: seq<Asset>): (v: View)
    ensures v.count == |assets|
    ensures v.list.Placeholder? <==> assets == []
    ensures v.list.Placeholder? ==> v.list.text == NoAssetsYet
    ensures v.list.Table? ==> v.list.rows == assets
  {
    View(|assets|, if |assets| == 0 then Placeholder(NoAssetsYet) else Table(assets))
  }

  /**
   * After an asset is appended the table is shown, one row longer, with the
   * earlier rows unchanged and the new asset last.
   */
  lemma ShownAfterAppend(assets: seq<Asset>, a: Asset)
    ensures Shown(assets + [a]).count == Shown(assets).count + 1
    ensures Shown(assets + [a]).list.Table?
    ensures Shown(assets + [a]).list.rows[..|assets|] == assets
    ensures Shown(assets + [a]).list.rows[|assets|] == a
  {
    assert (assets + [a])[..|assets|] == assets;
  }

  class RwaPage {
    var assets: seq<Asset>
    var showAddAssetModal: bool
    var newAsset: NewAsset

    /** Every asset has its own id. */
    ghost predicate Valid()
      reads this
    {
      DistinctIds(assets)
    }

    constructor ()
      ensures Valid()
      ensures assets == InitialAssets && !showAddAssetModal && newAsset == EmptyNewAsset
    {
      assets := InitialAssets;
      showAddAssetModal := false;
      newAsset := EmptyNewAsset;
    }

    /** The + button. */
    method OpenModal()
      modifies this`showAddAssetModal
      ensures showAddAssetModal
    {
      showAddAssetModal := true;
    }

    /** The modal's Cancel button: hides the modal and keeps the typed fields. */
    method CloseModal()
      modifies this`showAddAssetModal
      ensures !showAddAssetModal
    {
      showAddAssetModal := false;
    }

    /** `handleInputChange`: only the named input changes. */
    method HandleInputChange(field: Field, value: string)
      modifies this`newAsset
      ensures newAsset == WithField(old(newAsset), field, value)
    {
      match field
      case Name => newAsset := newAsset.(name := value);
      case Amount => newAsset := newAsset.(amount := value);
      case Yield => newAsset := newAsset.(yieldText := value);
    }

    /**
     * `handleAddAsset`: an empty input raises the alert and changes nothing;
     * otherwise one asset with the new id, the entered name and the formatted
     * amount, yield and value is appended, the form is emptied and the modal
     * closes. The three formatted texts are float formatting of the entered
     * amount and yield, given here as parameters.
     */
    method HandleAddAsset(formattedAmount: string, formattedYield: string, estimatedValue: string)
      returns (alerted: Option<string>)
      requires Valid()
      modifies this
      ensures Valid()
      ensures old(newAsset.name == "" || newAsset.amount == "" || newAsset.yieldText == "") ==>
        alerted == Some(FillAllFields) && unchanged(this)
      ensures old(newAsset.name != "" && newAsset.amount != "" && newAsset.yieldText != "") ==>
        alerted == None &&
        assets == old(assets) + [Asset(NewId(old(assets)), old(newAsset.name), formattedAmount, formattedYield, estimatedValue)] &&
        newAsset == EmptyNewAsset && !showAddAssetModal
    {
      if newAsset.name == "" || newAsset.amount == "" || newAsset.yieldText == "" {
        return Some(FillAllFields);
      }
      var newId := NewId(assets);
      var added := Asset(newId, newAsset.name, formattedAmount, formattedYield, estimatedValue);
      AppendKeepsDistinct(assets, added);
      assets := assets + [added];
      newAsset := EmptyNewAsset;
      showAddAssetModal := false;
      alerted := None;
    }
  }
}
