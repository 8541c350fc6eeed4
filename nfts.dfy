/** The NFT screen (src/pages/admin/nft-management.jsx): a local list seeded
    with three sample NFTs, a form shown and hidden by one button, and an
    add that appends only when every field is filled in. Nothing here talks
    to a server. */
module Nfts {

  datatype Nft = Nft(id: int, name: string, price: string, image: string)

  /** The form's draft, `newNft`. */
  datatype NftDraft = NftDraft(name: string, price: string, image: string)

  /** The inputs of the form, by their `name` attribute. */
  datatype NftField = Name | Price | Image

  const EmptyDraft: NftDraft := NftDraft("", "", "")

  /** The sample list the screen starts from. */
  const InitialNfts: seq<Nft> := [
    Nft(1, "CryptoPunk #001", "12 ETH", "/images/nft1.png"),
    Nft(2, "Bored Ape #23", "20 ETH", "/images/nft2.png"),
    Nft(3, "Doodle #11", "8 ETH", "/images/nft3.png")
  ]

  function FieldOf(d: NftDraft, f: NftField): string
  {
    match f
    case Name => d.name
    case Price => d.price
    case Image => d.image
  }

  /** `{ ...newNft, [name]: value }`: the named field takes the value and the
      other two are kept. */
  function WithField(d: NftDraft, f: NftField, value: string): (r: NftDraft)
    ensures FieldOf(r, f) == value
    ensures forall g :: g != f ==> FieldOf(r, g) == FieldOf(d, g)
  {
    match f
    case Name => d.(name := value)
    case Price => d.(price := value)
    case Image => d.(image := value)
  }

  /** `newNft.name && newNft.price && newNft.image`: every input of the form
      holds a non-empty value. */
  predicate Complete(d: NftDraft)
    ensures Complete(d) <==> forall f :: FieldOf(d, f) != ""
  {
    assert FieldOf(d, Name) == d.name && FieldOf(d, Price) == d.price && FieldOf(d, Image) == d.image;
    d.name != "" && d.price != "" && d.image != ""
  }

  /** Item i carries id i + 1. */
  predicate IdsAreIndices(list: seq<Nft>)
  {
    forall i :: 0 <= i < |list| ==> list[i].id == i + 1
  }

  /** `[...nftList, { ...newNft, id: nftList.length + 1 }]` */
  function Appended(list: seq<Nft>, d: NftDraft): seq<Nft>
  {
    list + [Nft(|list| + 1, d.name, d.price, d.image)]
  }

  /** The append puts the draft, numbered one past the old length, at the end
      and leaves every earlier item where it was. */
  lemma AppendedShape(list: seq<Nft>, d: NftDraft)
    ensures |Appended(list, d)| == |list| + 1
    ensures forall i :: 0 <= i < |list| ==> Appended(list, d)[i] == list[i]
    ensures var last := Appended(list, d)[|list|];
      last.id == |list| + 1 && last.name == d.name && last.price == d.price && last.image == d.image
  {
  }

  /** Appending keeps the numbering, so ids stay distinct. */
  lemma AppendKeepsIds(list: seq<Nft>, d: NftDraft)
    requires IdsAreIndices(list)
    ensures IdsAreIndices(Appended(list, d))
    ensures forall i, j :: 0 <= i < j < |Appended(list, d)| ==> Appended(list, d)[i].id != Appended(list, d)[j].id
  {
  }

  class NftScreen {
    var showForm: bool
    var nftList: seq<Nft>
    var newNft: NftDraft

    ghost predicate Valid()
      reads this
    {
      IdsAreIndices(nftList)
    }

    constructor ()
      ensures Valid()
      ensures !showForm && nftList == InitialNfts && newNft == EmptyDraft
    {
      showForm := false;
      nftList := InitialNfts;
      newNft := EmptyDraft;
    }

    /** toggleForm */
    method ToggleForm()
      modifies this`showForm
      ensures showForm == !old(showForm)
    {
      showForm := !showForm;
    }

    /** handleChange: one field of the draft takes the typed value. */
    method HandleChange(field: NftField, value: string)
      modifies this`newNft
      ensures newNft == WithField(old(newNft), field, value)
    {
      newNft := WithField(newNft, field, value);
    }

    /** handleAddNft: a complete draft is appended, the draft blanked and the
      form hidden; an incomplete one changes nothing. */
    method HandleAddNft()
      requires Valid()
      modifies this`nftList, this`newNft, this`showForm
      ensures Valid()
      ensures Complete(old(newNft)) ==>
        nftList == Appended(old(nftList), old(newNft)) && newNft == EmptyDraft && !showForm
      ensures !Complete(old(newNft)) ==>
        nftList == old(nftList) && newNft == old(newNft) && showForm == old(showForm)
    {
      if newNft.name != "" && newNft.price != "" && newNft.image != "" {
        AppendKeepsIds(nftList, newNft);
        nftList := Appended(nftList, newNft);
        newNft := EmptyDraft;
        showForm := false;
      }
    }
  }

  /** Pressing the toggle button twice leaves the form as it was. */
  method ToggleFormTwice(screen: NftScreen)
    modifies screen
    ensures screen.showForm == old(screen.showForm)
    ensures screen.nftList == old(screen.nftList) && screen.newNft == old(screen.newNft)
  {
    screen.ToggleForm();
    screen.ToggleForm();
  }
}
