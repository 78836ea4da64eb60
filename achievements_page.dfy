/** The achievements page (src/pages/Achievements.jsx): the achievement form and its handlers. */
module AchievementsPage {
  import opened Js
  import opened Collections
  import opened Catalog

  /** The form state. `title`, `desc` and `year` are copied from the edited achievement and may
      be missing; `category` falls back to "". */
  datatype AchievementForm = AchievementForm(
    title: Option<string>, desc: Option<string>, year: Option<string>, category: string)

  /** `INITIAL_FORM`. */
  const InitialForm := AchievementForm(Some(""), Some(""), Some(""), "")

  /** `!formData.title` fails. */
  predicate Submittable(form: AchievementForm) {
    form.title.Some? && form.title.value != ""
  }

  /** The payload: exactly the four form fields, and no id. */
  function Payload(form: AchievementForm): (r: Achievement)
    ensures r.id.None?
    ensures r.title == form.title && r.desc == form.desc && r.year == form.year && r.category == Some(form.category)
  {
    Achievement(id := None, title := form.title, desc := form.desc, year := form.year, category := Some(form.category))
  }

  /** The form `handleEdit(achievement)` loads. */
  function FormOf(achievement: Achievement): (r: AchievementForm)
    ensures r.title == achievement.title && r.desc == achievement.desc && r.year == achievement.year
    ensures achievement.category.None? ==> r.category == ""
  {
    AchievementForm(achievement.title, achievement.desc, achievement.year, achievement.category.GetOr(""))
  }

  /** Editing an achievement and submitting the form unchanged leaves it as it was, except that
      a missing category becomes "". */
  lemma EditThenSubmit(achievement: Achievement)
    ensures MergeAchievement(achievement, Payload(FormOf(achievement))) ==
      achievement.(category := Some(achievement.category.GetOr("")))
  {
  }

  /** The page's state cells. */
  class AchievementsPageState {
    var formData: AchievementForm
    var editingId: Option<Scalar>

    constructor ()
      ensures formData == InitialForm && editingId == None
    {
      formData := InitialForm;
      editingId := None;
    }

    /** `resetForm`. */
    method ResetForm()
      modifies this`formData, this`editingId
      ensures formData == InitialForm && editingId == None
    {
      formData := InitialForm;
      editingId := None;
    }

    /** The store update of `handleSubmit`: update the edited achievement when `id` is truthy,
        add a new one otherwise. */
    method Submit(store: Store, form: AchievementForm, id: Option<Scalar>, stamp: string)
      requires store.Valid()
      modifies store`achievements
      ensures store.Valid()
      ensures TruthyField(id) ==> store.achievements == UpdatedAchievements(old(store.achievements), id.value, Payload(form))
      ensures !TruthyField(id) ==> store.achievements == [NewAchievement(Payload(form), stamp)] + old(store.achievements)
    {
      if TruthyField(id) {
        store.UpdateAchievement(id.value, Payload(form));
      } else {
        store.AddAchievement(Payload(form), stamp);
      }
    }

    /** `handleSubmit`: nothing without a title; otherwise update or add, then reset the form. */
    method HandleSubmit(store: Store, stamp: string)
      requires store.Valid()
      modifies store`achievements, this`formData, this`editingId
      ensures store.Valid()
      ensures !Submittable(old(formData)) ==>
        store.achievements == old(store.achievements) && formData == old(formData) && editingId == old(editingId)
      ensures Submittable(old(formData)) && TruthyField(old(editingId)) ==>
        store.achievements == UpdatedAchievements(old(store.achievements), old(editingId).value, Payload(old(formData)))
      ensures Submittable(old(formData)) && !TruthyField(old(editingId)) ==>
        store.achievements == [NewAchievement(Payload(old(formData)), stamp)] + old(store.achievements)
      ensures Submittable(old(formData)) ==> formData == InitialForm && editingId == None
    {
      if !Submittable(formData) {
        return;
      }
      Submit(store, formData, editingId, stamp);
      ResetForm();
    }

    /** `handleEdit(achievement)`. */
    method HandleEdit(achievement: Achievement)
      modifies this`formData, this`editingId
      ensures editingId == achievement.id && formData == FormOf(achievement)
    {
      editingId := achievement.id;
      formData := FormOf(achievement);
    }

    /** `handleDelete(id)`: the form is reset exactly when the deleted achievement is the one being edited. */
    method HandleDelete(store: Store, id: Scalar)
      requires store.Valid()
      modifies store`achievements, this`formData, this`editingId
      ensures store.Valid()
      ensures store.achievements == Filter(old(store.achievements), AchievementIdIsNot(id))
      ensures old(editingId) == Some(id) ==> formData == InitialForm && editingId == None
      ensures old(editingId) != Some(id) ==> formData == old(formData) && editingId == old(editingId)
    {
      store.DeleteAchievement(id);
      if editingId == Some(id) {
        ResetForm();
      }
    }
  }
}
