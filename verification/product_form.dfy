/** The seller's new-product form (`ProductForm.tsx`): the form fields and the chosen image as
    the component's state, the required-field check, the image upload under a random name that
    keeps the file's extension, the seller lookup and the product insert, and the reset after a
    product is created. */
module ProductForm {
  import opened Wrappers
  import opened Seqs
  import opened Text
  import opened Tables

  /** The last occurrence of `c` in `s`. */
  function LastIndexOf(s: string, c: char): (r: Option<nat>)
    ensures r.Some? ==> r.value < |s| && s[r.value] == c && c !in s[r.value + 1..]
    ensures r.None? ==> c !in s
    decreases |s|
  {
    if s == [] then None
    else if s[|s| - 1] == c then Some(|s| - 1)
    else
      var r := LastIndexOf(s[..|s| - 1], c);
      assert s == s[..|s| - 1] + [s[|s| - 1]];
      if r.Some? then
        assert s[r.value + 1..] == s[..|s| - 1][r.value + 1..] + [s[|s| - 1]];
        r
      else r
  }

  /** `name.split('.').pop()`. */
  function FileExtension(name: string): string {
    var parts := Split(name, '.');
    parts[|parts| - 1]
  }

  /** The extension is the text after the last dot of the name, or the whole name when it has
      no dot; it never holds a dot itself. */
  lemma {:induction false} ExtensionFollowsLastDot(name: string)
    ensures '.' !in FileExtension(name)
    ensures '.' !in name ==> FileExtension(name) == name
    ensures '.' in name ==> exists i :: 0 <= i < |name| && name[i] == '.' && FileExtension(name) == name[i + 1..]
  {
    SplitPiecesHaveNoSeparator(name, '.');
    match LastIndexOf(name, '.')
    case None =>
      SplitWithoutSeparator(name, '.');
    case Some(i) =>
      var head, tail := name[..i], name[i + 1..];
      assert name == head + ['.'] + tail;
      SplitConcat(head, tail, '.');
      SplitWithoutSeparator(tail, '.');
      assert FileExtension(name) == tail;
  }

  /** The storage name of an upload: the random number, a dot and the extension. */
  function UploadName(random: string, fileName: string): string {
    random + "." + FileExtension(fileName)
  }

  /** A file the seller chose: only its name matters here. */
  datatype File = File(name: string)

  datatype Outcome = MissingFields | Created | Failed(message: string)

  const UploadFailedMessage := "Erro ao fazer upload da imagem"
  const NotAuthenticatedMessage := "Usuário não autenticado"
  const NotSellerMessage := "Você precisa ser um vendedor para criar produtos"

  function OwnedBy(userId: Id): Seller -> bool {
    (s: Seller) => s.userId == userId
  }

  /** The component's state. */
  class Form {
    var name: string
    var description: string
    var price: string
    var category: string
    var stockQuantity: string
    var imageFile: Option<File>
    var imagePreview: Option<string>

    /** The empty form: blank text fields, a stock of one and no image. */
    predicate Blank()
      reads this
    {
      name == "" && description == "" && price == "" && category == "" && stockQuantity == "1"
      && imageFile.None? && imagePreview.None?
    }

    /** A submission needs a name, a price and a category. */
    predicate Complete()
      reads this
    {
      name != "" && price != "" && category != ""
    }

    constructor ()
      ensures Blank()
    {
      name, description, price, category, stockQuantity := "", "", "", "", "1";
      imageFile, imagePreview := None, None;
    }

    /** `handleImageChange`: a chosen file replaces the image; `preview` is what the file
        reader produces for it. Cancelling the dialog changes nothing. */
    method ChooseImage(file: Option<File>, preview: string)
      modifies this
      ensures file.None? ==> imageFile == old(imageFile) && imagePreview == old(imagePreview)
      ensures file.Some? ==> imageFile == file && imagePreview == Some(preview)
      ensures name == old(name) && description == old(description) && price == old(price)
      ensures category == old(category) && stockQuantity == old(stockQuantity)
    {
      if file.Some? {
        imageFile := file;
        imagePreview := Some(preview);
      }
    }

    /** `removeImage`. */
    method RemoveImage()
      modifies this
      ensures imageFile.None? && imagePreview.None?
      ensures name == old(name) && description == old(description) && price == old(price)
      ensures category == old(category) && stockQuantity == old(stockQuantity)
    {
      imageFile, imagePreview := None, None;
    }

    /** `handleSubmit`. `random` is the `Math.random()` text, `uploadFails` whether the storage
        upload fails, `publicUrl` the storage's public address of a name, `user` the signed-in
        user, `parsedPrice` and `parsedStock` what `parseFloat` and `parseInt` make of the
        fields, `productId` the id the store gives the row, `insertFails` and `storeMessage` the
        insert's error. `uploaded` is the storage name written, if any: the upload comes before
        the user and seller checks, so a refused submission can still leave a file behind. */
    method Submit(db: Database, random: string, uploadFails: bool, publicUrl: string -> string,
                  user: Option<AuthUser>, parsedPrice: real, parsedStock: int, productId: Id,
                  insertFails: bool, storeMessage: string)
      returns (outcome: Outcome, uploaded: Option<string>)
      modifies this, db`products
      ensures !old(Complete()) ==> outcome == MissingFields && uploaded.None?
      ensures uploaded.Some? <==> old(Complete()) && old(imageFile).Some? && !uploadFails
      ensures uploaded.Some? ==> uploaded.value == UploadName(random, old(imageFile).value.name)
      ensures old(Complete()) && old(imageFile).Some? && uploadFails ==> outcome == Failed(UploadFailedMessage)
      ensures old(Complete()) && (old(imageFile).None? || !uploadFails) && user.None? ==>
                outcome == Failed(NotAuthenticatedMessage)
      ensures old(Complete()) && (old(imageFile).None? || !uploadFails) && user.Some?
              && Single(db.sellers, OwnedBy(user.value.id)).None? ==>
                outcome == Failed(NotSellerMessage)
      ensures old(Complete()) && (old(imageFile).None? || !uploadFails) && user.Some?
              && Single(db.sellers, OwnedBy(user.value.id)).Some? && insertFails ==>
                outcome == Failed(if storeMessage == "" then "Erro ao criar produto" else storeMessage)
      ensures old(Complete()) && (old(imageFile).None? || !uploadFails) && user.Some?
              && Single(db.sellers, OwnedBy(user.value.id)).Some? && !insertFails ==>
                outcome == Created
      ensures !outcome.Created? ==>
                && db.products == old(db.products)
                && name == old(name) && description == old(description) && price == old(price)
                && category == old(category) && stockQuantity == old(stockQuantity)
                && imageFile == old(imageFile) && imagePreview == old(imagePreview)
      ensures outcome.Created? ==>
                && old(Complete()) && user.Some? && Single(db.sellers, OwnedBy(user.value.id)).Some? && !insertFails
                && db.products == old(db.products)
                     + [Product(productId, old(name), Some(old(description)), parsedPrice, old(category),
                                Single(db.sellers, OwnedBy(user.value.id)).value.id, parsedStock, true,
                                if old(imageFile).None? then None else Some(publicUrl(UploadName(random, old(imageFile).value.name))))]
                && Blank()
    {
      uploaded := None;
      if !Complete() {
        return MissingFields, None;
      }
      var imageUrl: Option<string> := None;
      if imageFile.Some? {
        if uploadFails {
          return Failed(UploadFailedMessage), None;
        }
        var fileName := UploadName(random, imageFile.value.name);
        uploaded := Some(fileName);
        imageUrl := Some(publicUrl(fileName));
      }
      if user.None? {
        return Failed(NotAuthenticatedMessage), uploaded;
      }
      var seller := Single(db.sellers, OwnedBy(user.value.id));
      if seller.None? {
        return Failed(NotSellerMessage), uploaded;
      }
      if insertFails {
        return Failed(if storeMessage == "" then "Erro ao criar produto" else storeMessage), uploaded;
      }
      db.products := db.products + [Product(productId, name, Some(description), parsedPrice, category,
                                            seller.value.id, parsedStock, true, imageUrl)];
      name, description, price, category, stockQuantity := "", "", "", "", "1";
      RemoveImage();
      outcome := Created;
    }
  }
}
