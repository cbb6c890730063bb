/**
 * The dialog that creates or edits a category: a form of name, type and colour
 * with its validators, filled from the category being edited or with defaults,
 * a colour picked from the palette or typed in, and the decision whether saving
 * adds a new category or updates the edited one.
 */
module CategoryDialog {
  import opened Seqs
  import opened Records
  import opened Colors

  /** The colour of a new category. */
  const DefaultFormColor: string := "#2196F3"

  /** `Validators.maxLength(30)` on the name. */
  const MaxNameLength: nat := 30

  /** `colorOptions`, the palette beside the colour field. */
  const ColorOptions: seq<string> := [
    "#F44336", "#E91E63", "#9C27B0", "#673AB7", "#3F51B5", "#2196F3",
    "#03A9F4", "#00BCD4", "#009688", "#4CAF50", "#8BC34A", "#CDDC39",
    "#FFEB3B", "#FFC107", "#FF9800", "#FF5722", "#795548", "#607D8B",
    "#9E9E9E", "#000000"
  ]

  /** The form's values: `name`, `type` and `color`. */
  datatype Form = Form(name: string, kind: TxType, color: string)

  /** `Validators.required` and `Validators.maxLength(30)`. */
  predicate NameValid(name: string) {
    name != "" && |name| <= MaxNameLength
  }

  /** The whole form is valid: a valid name and a `#RRGGBB` colour (the type
      always holds one of its two values). */
  predicate FormValid(f: Form) {
    NameValid(f.name) && IsHexColor(f.color)
  }

  /** `initializeForm`: each field from the edited category, with `||` falling back
      to `''`, `'expense'` and `'#2196F3'` for a missing category or an empty value. */
  function InitialForm(category: Option<Category>): (f: Form)
    ensures category.None? ==> f == Form("", Expense, DefaultFormColor)
    ensures category.Some? ==> f.name == category.value.name
    ensures category.Some? ==> f.kind == (if category.value.kind.Some? then category.value.kind.value else Expense)
    ensures category.Some? && category.value.color != "" ==> f.color == category.value.color
    ensures category.Some? && category.value.color == "" ==> f.color == DefaultFormColor
  {
    match category
    case None => Form("", Expense, DefaultFormColor)
    case Some(c) =>
      Form(c.name, if c.kind.Some? then c.kind.value else Expense, if c.color == "" then DefaultFormColor else c.color)
  }

  /** Every palette colour, and the default, passes the colour rule. */
  lemma PaletteValid()
    ensures IsHexColor(DefaultFormColor)
    ensures forall c <- ColorOptions :: IsHexColor(c)
  {
    forall i | 0 <= i < |ColorOptions| ensures IsHexColor(ColorOptions[i]) {
      // the palette is checked five colours at a time
      if i < 5 {
      } else if i < 10 {
      } else if i < 15 {
      } else {
      }
    }
  }

  /** A new category's form cannot be saved until a name is entered; once it has a
      valid name, the defaults make it valid. */
  lemma NewFormNeedsName(name: string)
    ensures !FormValid(InitialForm(None))
    ensures FormValid(InitialForm(None).(name := name)) <==> NameValid(name)
  {
    PaletteValid();
  }

  /** Editing a category with a valid name and a valid or empty colour starts from
      a valid form; a name over 30 characters makes it invalid. */
  lemma EditFormValid(c: Category)
    ensures FormValid(InitialForm(Some(c))) <==> NameValid(c.name) && (c.color == "" || IsHexColor(c.color))
  {
    PaletteValid();
  }

  /** What `saveCategory` does with the store. */
  datatype SaveAction = NoAction | Update(id: int, data: Form) | Add(data: Form)

  /** `saveCategory`: nothing while the form is invalid; an update of the edited
      category when in edit mode and it has an id; an add otherwise. */
  function SaveDecision(form: Form, isEditMode: bool, category: Option<Category>): (a: SaveAction)
    ensures a == NoAction <==> !FormValid(form)
    ensures a.Update? <==> FormValid(form) && isEditMode && category.Some? && HasId(category.value.id)
    ensures a.Update? ==> a.id == category.value.id.value && a.data == form
    ensures a.Add? ==> a.data == form
  {
    if !FormValid(form) then NoAction
    else if isEditMode && category.Some? && HasId(category.value.id) then Update(category.value.id.value, form)
    else Add(form)
  }

  class CategoryDialogComponent {
    /** `data.category`: the category being edited, if any. */
    const category: Option<Category>
    var categoryForm: Form
    var isEditMode: bool
    var selectedColor: string

    /** The component as Angular hands it out: constructed, then `ngOnInit` run. */
    constructor(category: Option<Category>)
      ensures this.category == category
      ensures isEditMode <==> category.Some?
      ensures categoryForm == InitialForm(category) && selectedColor == categoryForm.color
    {
      this.category := category;
      categoryForm := Form("", Expense, DefaultFormColor);
      isEditMode := false;
      selectedColor := DefaultFormColor;
      new;
      OnInit();
    }

    /** `ngOnInit`: edit mode exactly when a category was passed in, then the form. */
    method OnInit()
      modifies this
      ensures isEditMode <==> category.Some?
      ensures categoryForm == InitialForm(category) && selectedColor == categoryForm.color
    {
      isEditMode := category.Some?;
      InitializeForm();
    }

    /** `initializeForm`. */
    method InitializeForm()
      modifies this
      ensures categoryForm == InitialForm(category)
      ensures selectedColor == (if category.Some? && category.value.color != "" then category.value.color else DefaultFormColor)
      ensures isEditMode == old(isEditMode)
    {
      categoryForm := InitialForm(category);
      selectedColor := if category.Some? && category.value.color != "" then category.value.color else DefaultFormColor;
    }

    /** `selectColor(color)`: the swatch and the form's colour both take it. */
    method SelectColor(color: string)
      modifies this
      ensures selectedColor == color && categoryForm == old(categoryForm).(color := color)
      ensures isEditMode == old(isEditMode)
    {
      selectedColor := color;
      categoryForm := categoryForm.(color := color);
    }

    /** Typing into the colour field: the field is the form's `color` control, so
        the typed text becomes the form's colour, valid or not, and `onColorInput`
        moves the swatch to it only when it passes the colour rule. */
    method OnColorInput(value: string)
      modifies this
      ensures categoryForm == old(categoryForm).(color := value)
      ensures IsHexColor(value) ==> selectedColor == value
      ensures !IsHexColor(value) ==> selectedColor == old(selectedColor)
      ensures isEditMode == old(isEditMode)
    {
      categoryForm := categoryForm.(color := value);
      if value != "" && IsHexColor(value) {
        selectedColor := value;
      }
    }

    /** `saveCategory`, as the decision it takes. */
    method SaveCategory() returns (a: SaveAction)
      ensures a == SaveDecision(categoryForm, isEditMode, category)
      ensures a.Update? ==> category.Some? && a.id == category.value.id.value
    {
      a := SaveDecision(categoryForm, isEditMode, category);
    }
  }

  /** Right after opening, saving updates exactly when an existing category with an
      id is edited through a valid form. */
  lemma SaveAfterOpen(c: Option<Category>, form: Form)
    requires FormValid(form)
    ensures SaveDecision(form, c.Some?, c).Update? <==> c.Some? && HasId(c.value.id)
    ensures SaveDecision(form, c.Some?, c).Add? <==> c.None? || !HasId(c.value.id)
  {
  }

  /** A typed colour decides whether the form can be saved: with a valid name, the
      form saves exactly when the typed text passes the colour rule, and then it saves
      that colour. */
  lemma TypedColorSaved(f: Form, typed: string, isEditMode: bool, c: Option<Category>)
    requires NameValid(f.name)
    ensures SaveDecision(f.(color := typed), isEditMode, c) == NoAction <==> !IsHexColor(typed)
    ensures SaveDecision(f.(color := typed), isEditMode, c).Add? ==> SaveDecision(f.(color := typed), isEditMode, c).data.color == typed
    ensures SaveDecision(f.(color := typed), isEditMode, c).Update? ==> SaveDecision(f.(color := typed), isEditMode, c).data.color == typed
  {
  }
}
